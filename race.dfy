/** `Promise.race`: the promise it returns only ever takes the outcome of one of
    its sources, the first source to reach it wins, and later settlements of
    the other sources leave it alone. */
module RaceCombinator {
  import opened PromiseTypes
  import opened Semantics
  import opened Cascade

  /** Outcome `r` is one `race(group)` may hold: nothing yet, or the outcome of
      one of its sources. */
  ghost predicate Adopted<A, E>(s: Snapshot<A, E>, group: seq<nat>, r: Result<A, E>)
    requires Exist(s, group)
  {
    r.Undefined? || exists j :: 0 <= j < |group| && s.cells[group[j]].result == r
  }

  /** `t` is the promise `race(group)` returned: its sources are older than it, and
      the only listeners aimed at it are the `race` listeners on its sources. */
  ghost predicate RaceWired<A, E>(s: Snapshot<A, E>, t: nat, group: seq<nat>)
  {
    && t < |s.cells|
    && (forall j :: 0 <= j < |group| ==> group[j] < t)
    && (forall i, k :: 0 <= i < |s.cells| && 0 <= k < |s.cells[i].listeners| && s.cells[i].listeners[k].target == t ==>
          s.cells[i].listeners[k] == RaceStep(t) && i in group)
  }

  /** The invariant of a `race` promise. */
  ghost predicate RaceInv<A, E>(s: Snapshot<A, E>, t: nat, group: seq<nat>)
  {
    RaceWired(s, t, group) && Adopted(s, group, s.cells[t].result)
  }

  /** Every still-pending source carries the `race` listener. */
  ghost predicate RaceRegistered<A, E>(s: Snapshot<A, E>, t: nat, group: seq<nat>)
    requires Exist(s, group)
  {
    forall j :: 0 <= j < |group| && s.cells[group[j]].state == Pending ==>
      exists k :: 0 <= k < |s.cells[group[j]].listeners| && s.cells[group[j]].listeners[k] == RaceStep(t)
  }

  /** An adopted outcome belongs to a settled source, so it survives any step that
      leaves settled promises alone. */
  lemma AdoptedKept<A, E>(s: Snapshot<A, E>, s': Snapshot<A, E>, group: seq<nat>, r: Result<A, E>)
    requires AllCoherent(s) && Exist(s, group) && |s.cells| <= |s'.cells| && Grows(s, s')
    requires Adopted(s, group, r)
    ensures Exist(s', group) && Adopted(s', group, r)
  {
    if !r.Undefined? {
      var j :| 0 <= j < |group| && s.cells[group[j]].result == r;
      assert Coherent(s.cells[group[j]]);
      assert s'.cells[group[j]] == s.cells[group[j]];
    }
  }

  /** Settlements keep the `race` invariant, provided a settlement of `t` itself
      adopts a source's outcome. */
  lemma {:induction false} RaceSettle<A, E>(s: Snapshot<A, E>, p: nat, r: Result<A, E>, t: nat, group: seq<nat>)
    requires Consistent(s) && p < |s.cells| && !r.Undefined? && RaceInv(s, t, group)
    requires p == t ==> Adopted(s, group, r)
    ensures RaceInv(Settle(s, p, r), t, group)
    decreases |s.cells| - p, 2, 0
  {
    if s.cells[p].state == Pending {
      var m := Mark(s, p, r);
      AdoptedKept(s, m, group, m.cells[t].result);
      RaceFire(m, p, r, s.cells[p].listeners, t, group);
    }
  }

  lemma {:induction false} RaceFire<A, E>(s: Snapshot<A, E>, p: nat, r: Result<A, E>, ls: seq<Listener<A>>, t: nat, group: seq<nat>)
    requires Consistent(s) && p < |s.cells| && !r.Undefined? && s.cells[p].result == r && RaceInv(s, t, group)
    requires forall k :: 0 <= k < |ls| ==> Fits(ls[k], p, |s.cells|)
    requires forall k :: 0 <= k < |ls| && ls[k].target == t ==> ls[k] == RaceStep(t) && p in group
    ensures RaceInv(Fire(s, p, r, ls), t, group)
    decreases |s.cells| - p, 1, |ls|
  {
    if ls != [] {
      RaceFireOne(s, p, ls[0], r, t, group);
      var s1 := FireOne(s, p, ls[0], r);
      assert Coherent(s.cells[p]);
      RaceFire(s1, p, r, ls[1..], t, group);
    }
  }

  lemma {:induction false} RaceFireOne<A, E>(s: Snapshot<A, E>, p: nat, l: Listener<A>, r: Result<A, E>, t: nat, group: seq<nat>)
    requires Consistent(s) && p < |s.cells| && !r.Undefined? && s.cells[p].result == r && RaceInv(s, t, group)
    requires Fits(l, p, |s.cells|)
    requires l.target == t ==> l == RaceStep(t) && p in group
    ensures RaceInv(FireOne(s, p, l, r), t, group)
    decreases |s.cells| - p, 0, 0
  {
    match l
    case ThenStep(q, f, _) =>
      if r.Value? {
        RaceSettle(s, q, Value(f(r.value)), t, group);
      } else {
        RaceSettle(s, q, r, t, group);
      }
    case AllStep(q, g) =>
      if r.Error? {
        RaceSettle(s, q, r, t, group);
      } else if CountFulfilled(s.cells, g) == |g| {
        RaceSettle(s, q, Value(List(FlatValues(s.cells, g))), t, group);
      }
    case RaceStep(q) =>
      if q == t {
        var j :| 0 <= j < |group| && group[j] == p;
        assert s.cells[group[j]].result == r;
      }
      RaceSettle(s, q, r, t, group);
  }

  /** Registering the `race` listener on the sources `ps`, the tail of `group`
      still to go, keeps the invariant and leaves it on every pending source. */
  lemma {:induction false} RegisterEachRace<A, E>(s: Snapshot<A, E>, ps: seq<nat>, t: nat, group: seq<nat>)
    requires Consistent(s) && RaceInv(s, t, group)
    requires |ps| <= |group| && ps == group[|group| - |ps|..]
    requires forall j :: 0 <= j < |group| - |ps| && s.cells[group[j]].state == Pending ==>
      exists k :: 0 <= k < |s.cells[group[j]].listeners| && s.cells[group[j]].listeners[k] == RaceStep(t)
    ensures var s' := RegisterEach(s, ps, RaceStep(t));
      RaceInv(s', t, group) && RaceRegistered(s', t, group)
    decreases |ps|
  {
    var l := RaceStep(t);
    if ps != [] {
      var g := ps[0];
      var s1 := Register(s, g, l);
      var n := |group| - |ps|;
      assert group[n] == g;
      if s.cells[g].state == Pending {
        assert RaceWired(s1, t, group) by {
          forall i, k | 0 <= i < |s1.cells| && 0 <= k < |s1.cells[i].listeners| && s1.cells[i].listeners[k].target == t
            ensures s1.cells[i].listeners[k] == l && i in group
          {
            if i == g && k == |s.cells[g].listeners| {
              assert group[n] == i;
            } else {
              assert s1.cells[i].listeners[k] == s.cells[i].listeners[k];
            }
          }
        }
        AdoptedKept(s, s1, group, s1.cells[t].result);
        forall j | 0 <= j < n + 1 && s1.cells[group[j]].state == Pending
          ensures exists k :: 0 <= k < |s1.cells[group[j]].listeners| && s1.cells[group[j]].listeners[k] == l
        {
          if group[j] == g {
            assert s1.cells[g].listeners[|s.cells[g].listeners|] == l;
          } else {
            var k :| 0 <= k < |s.cells[group[j]].listeners| && s.cells[group[j]].listeners[k] == l;
            assert s1.cells[group[j]].listeners[k] == l;
          }
        }
      } else {
        assert g in group;
        RaceFireOne(s, g, l, s.cells[g].result, t, group);
        forall j | 0 <= j < n + 1 && s1.cells[group[j]].state == Pending
          ensures exists k :: 0 <= k < |s1.cells[group[j]].listeners| && s1.cells[group[j]].listeners[k] == l
        {
          assert s.cells[group[j]].state == Pending;
          var k :| 0 <= k < |s.cells[group[j]].listeners| && s.cells[group[j]].listeners[k] == l;
          assert s1.cells[group[j]].listeners[k] == l;
        }
      }
      assert ps[1..] == group[n + 1..];
      RegisterEachRace(s1, ps[1..], t, group);
    }
  }

  /** `race(group)` returns a promise that keeps the invariant and is listened for
      by every source that is still pending. */
  lemma RaceOfEstablishes<A, E>(s: Snapshot<A, E>, group: seq<nat>)
    requires Consistent(s) && Exist(s, group)
    ensures var s' := RaceOf(s, group);
      RaceInv(s', |s.cells|, group) && RaceRegistered(s', |s.cells|, group)
  {
    var s0 := Create(s);
    var t := |s.cells|;
    assert RaceWired(s0, t, group) by {
      forall i, k | 0 <= i < |s0.cells| && 0 <= k < |s0.cells[i].listeners|
        ensures s0.cells[i].listeners[k].target != t
      {
        assert Fits(s.cells[i].listeners[k], i, |s.cells|);
      }
    }
    RegisterEachRace(s0, group, t, group);
  }

  /** Registration runs in input order: when `ps[j]` is the first settled source,
      the fresh `race` promise `t` takes exactly its outcome. */
  lemma {:induction false} RegisterEachRaceFirst<A, E>(s: Snapshot<A, E>, ps: seq<nat>, t: nat, j: nat)
    requires Consistent(s) && t < |s.cells| && (forall i :: 0 <= i < |ps| ==> ps[i] < t)
    requires s.cells[t] == NewCell()
    requires j < |ps| && s.cells[ps[j]].state != Pending
    requires forall i :: 0 <= i < j ==> s.cells[ps[i]].state == Pending
    ensures RegisterEach(s, ps, RaceStep(t)).cells[t] == Cell(s.cells[ps[j]].state, s.cells[ps[j]].result, [])
    decreases |ps|
  {
    var s1 := Register(s, ps[0], RaceStep(t));
    assert Coherent(s.cells[ps[j]]);
    if j > 0 {
      RegisterEachRaceFirst(s1, ps[1..], t, j - 1);
    }
  }

  /** `race` called when some sources have already settled: the returned promise
      takes the outcome of the first settled one in input order. */
  lemma RaceAdoptsAtOnce<A, E>(s: Snapshot<A, E>, group: seq<nat>, j: nat)
    requires Consistent(s) && Exist(s, group)
    requires j < |group| && s.cells[group[j]].state != Pending
    requires forall i :: 0 <= i < j ==> s.cells[group[i]].state == Pending
    ensures RaceOf(s, group).cells[|s.cells|] == Cell(s.cells[group[j]].state, s.cells[group[j]].result, [])
  {
    var s0 := Create(s);
    RegisterEachRaceFirst(s0, group, |s.cells|, j);
  }

  /** `x` is the `race` promise `t` or one of its sources other than `g`. */
  ghost predicate Rival(group: seq<nat>, g: nat, t: nat, x: nat)
  {
    x == t || (x in group && x != g)
  }

  /** Source `g` settles with `r` while the `race` promise `t` is still pending,
      and nothing but `g`'s own `race` listener leads from a pending promise
      outside the race into it: `t` takes `g`'s outcome. */
  lemma RaceAdoptsFirst<A, E>(s: Snapshot<A, E>, g: nat, r: Result<A, E>, k: nat, t: nat, group: seq<nat>)
    requires Consistent(s) && RaceWired(s, t, group) && s.cells[t].state == Pending
    requires g < |s.cells| && s.cells[g].state == Pending && !r.Undefined?
    requires k < |s.cells[g].listeners| && s.cells[g].listeners[k] == RaceStep(t)
    requires forall i, k' ::
      (0 <= i < |s.cells| && !Rival(group, g, t, i) && s.cells[i].state == Pending &&
       0 <= k' < |s.cells[i].listeners| && (i, k') != (g, k)) ==>
        !Rival(group, g, t, s.cells[i].listeners[k'].target)
    ensures Settle(s, g, r).cells[t] == Cell(StateOf(r), r, s.cells[t].listeners)
  {
    var S := set x: nat | x < |s.cells| && Rival(group, g, t, x);
    var ls := s.cells[g].listeners;
    var m := Mark(s, g, r);
    assert g !in S;
    assert Unaimed(m, S) by {
      forall i, k' | 0 <= i < |m.cells| && i !in S && m.cells[i].state == Pending && 0 <= k' < |m.cells[i].listeners|
        ensures m.cells[i].listeners[k'].target !in S
      {
        assert i != g && m.cells[i] == s.cells[i];
      }
    }
    assert forall j :: 0 <= j < |ls| ==> Fits(ls[j], g, |m.cells|) by {
      forall j | 0 <= j < |ls| ensures Fits(ls[j], g, |m.cells|) {
        assert Fits(s.cells[g].listeners[j], g, |s.cells|);
      }
    }
    ChainAt(m, g, r, ls, k);
    var pre := ls[..k];
    assert forall j :: 0 <= j < |pre| ==> Fits(pre[j], g, |m.cells|) && pre[j].target !in S by {
      forall j | 0 <= j < |pre| ensures Fits(pre[j], g, |m.cells|) && pre[j].target !in S {
        assert pre[j] == s.cells[g].listeners[j] && (g, j) != (g, k);
      }
    }
    FireFrame(m, g, r, pre, S);
    var s1 := Fire(m, g, r, pre);
    assert t in S;
    assert s1.cells[t] == s.cells[t];
  }

  /** Every pending source still carries the `race` listener after any step that
      leaves settled promises alone and drops no registration. */
  lemma RaceRegisteredKept<A, E>(s: Snapshot<A, E>, s': Snapshot<A, E>, t: nat, group: seq<nat>)
    requires Exist(s, group) && |s.cells| <= |s'.cells| && Grows(s, s') && ChainsGrow(s, s')
    requires RaceRegistered(s, t, group)
    ensures Exist(s', group) && RaceRegistered(s', t, group)
  {
    forall j | 0 <= j < |group| && s'.cells[group[j]].state == Pending
      ensures exists k :: 0 <= k < |s'.cells[group[j]].listeners| && s'.cells[group[j]].listeners[k] == RaceStep(t)
    {
      var i := group[j];
      assert s.cells[i].state == Pending;
      var k :| 0 <= k < |s.cells[i].listeners| && s.cells[i].listeners[k] == RaceStep(t);
      assert s.cells[i].listeners <= s'.cells[i].listeners;
      assert s'.cells[i].listeners[k] == RaceStep(t);
    }
  }

  /** Creating a promise keeps the `race` invariant and its registrations. */
  lemma RaceKeptByCreate<A, E>(s: Snapshot<A, E>, t: nat, group: seq<nat>)
    requires Consistent(s) && RaceInv(s, t, group) && RaceRegistered(s, t, group)
    ensures RaceInv(Create(s), t, group) && RaceRegistered(Create(s), t, group)
  {
    var s' := Create(s);
    assert forall i :: 0 <= i < |s.cells| ==> s'.cells[i] == s.cells[i];
    AdoptedKept(s, s', group, s.cells[t].result);
  }

  /** A settlement keeps the `race` invariant and its registrations, provided a
      settlement of `t` itself adopts a source's outcome. */
  lemma RaceKeptBySettle<A, E>(s: Snapshot<A, E>, p: nat, r: Result<A, E>, t: nat, group: seq<nat>)
    requires Consistent(s) && p < |s.cells| && !r.Undefined? && RaceInv(s, t, group) && RaceRegistered(s, t, group)
    requires p == t ==> Adopted(s, group, r)
    ensures RaceInv(Settle(s, p, r), t, group) && RaceRegistered(Settle(s, p, r), t, group)
  {
    RaceSettle(s, p, r, t, group);
    SettleChainsGrow(s, p, r);
    RaceRegisteredKept(s, Settle(s, p, r), t, group);
  }

  /** A registration aimed at another promise keeps the `race` invariant and its
      registrations. */
  lemma RaceKeptByRegister<A, E>(s: Snapshot<A, E>, p: nat, l: Listener<A>, t: nat, group: seq<nat>)
    requires Consistent(s) && p < |s.cells| && Fits(l, p, |s.cells|) && l.target != t
    requires RaceInv(s, t, group) && RaceRegistered(s, t, group)
    ensures RaceInv(Register(s, p, l), t, group) && RaceRegistered(Register(s, p, l), t, group)
  {
    var s' := Register(s, p, l);
    RegisterChainsGrow(s, p, l);
    RaceRegisteredKept(s, s', t, group);
    if s.cells[p].state == Pending {
      assert RaceWired(s', t, group) by {
        forall i, k | 0 <= i < |s'.cells| && 0 <= k < |s'.cells[i].listeners| && s'.cells[i].listeners[k].target == t
          ensures s'.cells[i].listeners[k] == RaceStep(t) && i in group
        {
          if i != p || k < |s.cells[p].listeners| {
            assert s'.cells[i].listeners[k] == s.cells[i].listeners[k];
          }
        }
      }
      assert s'.cells[t].result == s.cells[t].result;
      AdoptedKept(s, s', group, s.cells[t].result);
    } else {
      RaceFireOne(s, p, l, s.cells[p].result, t, group);
    }
  }

  /** Registering a listener aimed at another promise on each of `ps` keeps the
      `race` invariant and its registrations. */
  lemma {:induction false} RaceKeptByRegisterEach<A, E>(s: Snapshot<A, E>, ps: seq<nat>, l: Listener<A>, t: nat, group: seq<nat>)
    requires Consistent(s) && Aims(l, |s.cells|) && (forall j :: 0 <= j < |ps| ==> ps[j] < l.target) && l.target != t
    requires RaceInv(s, t, group) && RaceRegistered(s, t, group)
    ensures RaceInv(RegisterEach(s, ps, l), t, group) && RaceRegistered(RegisterEach(s, ps, l), t, group)
    decreases |ps|
  {
    if ps != [] {
      RaceKeptByRegister(s, ps[0], l, t, group);
      RaceKeptByRegisterEach(Register(s, ps[0], l), ps[1..], l, t, group);
    }
  }

  /** `then` and `catch` on any promise keep the `race` invariant and its
      registrations. */
  lemma RaceKeptByThen<A, E>(s: Snapshot<A, E>, p: nat, f: Val<A> -> Val<A>, observed: bool, t: nat, group: seq<nat>)
    requires Consistent(s) && p < |s.cells| && RaceInv(s, t, group) && RaceRegistered(s, t, group)
    ensures RaceInv(ThenOn(s, p, f, observed), t, group) && RaceRegistered(ThenOn(s, p, f, observed), t, group)
    ensures RaceInv(CatchOn(s, p), t, group) && RaceRegistered(CatchOn(s, p), t, group)
  {
    RaceKeptByCreate(s, t, group);
    RaceKeptByRegister(Create(s), p, ThenStep(|s.cells|, f, observed), t, group);
    RaceKeptByRegister(Create(s), p, ThenStep(|s.cells|, Identity, true), t, group);
  }

  /** An `all` or another `race` keeps the `race` invariant and its registrations. */
  lemma RaceKeptByCombinators<A, E>(s: Snapshot<A, E>, other: seq<nat>, t: nat, group: seq<nat>)
    requires Consistent(s) && Exist(s, other) && RaceInv(s, t, group) && RaceRegistered(s, t, group)
    ensures RaceInv(AllOf(s, other), t, group) && RaceRegistered(AllOf(s, other), t, group)
    ensures RaceInv(RaceOf(s, other), t, group) && RaceRegistered(RaceOf(s, other), t, group)
  {
    RaceKeptByCreate(s, t, group);
    RaceKeptByRegisterEach(Create(s), other, AllStep(|s.cells|, other), t, group);
    RaceKeptByRegisterEach(Create(s), other, RaceStep(|s.cells|), t, group);
  }

  /** `resolve`, `reject` and `Promise(p)` keep the `race` invariant and its
      registrations. */
  lemma RaceKeptByConstructors<A, E>(s: Snapshot<A, E>, r: Result<A, E>, t: nat, group: seq<nat>)
    requires Consistent(s) && RaceInv(s, t, group) && RaceRegistered(s, t, group)
    requires r.Value? || r.Error?
    ensures r.Value? ==> RaceInv(Resolve(s, r.value), t, group) && RaceRegistered(Resolve(s, r.value), t, group)
    ensures r.Error? ==> RaceInv(Reject(s, r.error), t, group) && RaceRegistered(Reject(s, r.error), t, group)
    ensures forall q :: 0 <= q < |s.cells| && s.cells[q].state != Pending ==>
      RaceInv(CopyOf(s, q), t, group) && RaceRegistered(CopyOf(s, q), t, group)
  {
    RaceKeptByCreate(s, t, group);
    RaceKeptBySettle(Create(s), |s.cells|, r, t, group);
    forall q | 0 <= q < |s.cells| && s.cells[q].state != Pending
      ensures RaceInv(CopyOf(s, q), t, group) && RaceRegistered(CopyOf(s, q), t, group)
    {
      assert Coherent(s.cells[q]);
      RaceKeptBySettle(Create(s), |s.cells|, s.cells[q].result, t, group);
    }
  }

  /** A source of a registered, still pending `race` promise settles: the `race`
      promise is settled by then, with the outcome of one of its sources. */
  lemma RaceSettlesWhenSourceSettles<A, E>(s: Snapshot<A, E>, j: nat, r: Result<A, E>, t: nat, group: seq<nat>)
    requires Consistent(s) && RaceInv(s, t, group) && RaceRegistered(s, t, group) && !r.Undefined?
    requires j < |group| && s.cells[group[j]].state == Pending
    ensures var s' := Settle(s, group[j], r);
      && s'.cells[t].state != Pending
      && exists i :: 0 <= i < |group| && s'.cells[t].result == s'.cells[group[i]].result
  {
    var g := group[j];
    var k :| 0 <= k < |s.cells[g].listeners| && s.cells[g].listeners[k] == RaceStep(t);
    Delivered(s, g, r, k);
    RaceSettle(s, g, r, t, group);
    var s' := Settle(s, g, r);
    assert Coherent(s'.cells[t]);
  }

  /** `t` is due: once a source outside `owed` is settled, so is `t`. The
      sources in `owed` are excused while their `race` listener is still to run
      further up the cascade. */
  ghost predicate RaceDue<A, E>(s: Snapshot<A, E>, t: nat, group: seq<nat>, owed: set<nat>)
    requires t < |s.cells| && Exist(s, group)
  {
    (exists j :: 0 <= j < |group| && group[j] !in owed && s.cells[group[j]].state != Pending)
    ==> s.cells[t].state != Pending
  }

  /** The wiring of `race` and its registrations only depend on the chains. */
  lemma RaceWiringKept<A, E>(s: Snapshot<A, E>, s': Snapshot<A, E>, t: nat, group: seq<nat>)
    requires RaceWired(s, t, group) && RaceRegistered(s, t, group)
    requires SameShape(s, s') && Grows(s, s')
    ensures RaceWired(s', t, group) && RaceRegistered(s', t, group)
  {
    forall j | 0 <= j < |group| && s'.cells[group[j]].state == Pending
      ensures exists k :: 0 <= k < |s'.cells[group[j]].listeners| && s'.cells[group[j]].listeners[k] == RaceStep(t)
    {
      assert s.cells[group[j]].state == Pending;
      var k :| 0 <= k < |s.cells[group[j]].listeners| && s.cells[group[j]].listeners[k] == RaceStep(t);
      assert s'.cells[group[j]].listeners[k] == RaceStep(t);
    }
  }

  /** Settling any promise, with the whole cascade it sets off, keeps `t` due,
      whether a source is settled directly or through another promise's chain. */
  lemma {:induction false} RaceDueSettle<A, E>(s: Snapshot<A, E>, q: nat, r: Result<A, E>, t: nat, group: seq<nat>, owed: set<nat>)
    requires Consistent(s) && q < |s.cells| && !r.Undefined?
    requires RaceWired(s, t, group) && RaceRegistered(s, t, group) && RaceDue(s, t, group, owed)
    ensures RaceDue(Settle(s, q, r), t, group, owed)
    decreases |s.cells| - q, 2, 0
  {
    if s.cells[q].state == Pending && q != t {
      var ls := s.cells[q].listeners;
      var m := Mark(s, q, r);
      var owed' := if RaceStep(t) in ls then owed + {q} else owed;
      RaceWiringKept(s, m, t, group);
      if q in group {
        var j :| 0 <= j < |group| && group[j] == q;
        var k :| 0 <= k < |ls| && ls[k] == RaceStep(t);
      }
      assert RaceDue(m, t, group, owed') by {
        forall j | 0 <= j < |group| && group[j] !in owed' ensures m.cells[group[j]] == s.cells[group[j]] {
        }
      }
      RaceDueFire(m, q, r, ls, t, group, owed);
    }
  }

  lemma {:induction false} RaceDueFire<A, E>(s: Snapshot<A, E>, p: nat, r: Result<A, E>, ls: seq<Listener<A>>, t: nat, group: seq<nat>, owed: set<nat>)
    requires Consistent(s) && p < |s.cells| && !r.Undefined? && s.cells[p].result == r
    requires forall k :: 0 <= k < |ls| ==> Fits(ls[k], p, |s.cells|)
    requires forall k :: 0 <= k < |ls| && ls[k].target == t ==> ls[k] == RaceStep(t) && p in group
    requires RaceWired(s, t, group) && RaceRegistered(s, t, group)
    requires RaceDue(s, t, group, if RaceStep(t) in ls then owed + {p} else owed)
    ensures RaceDue(Fire(s, p, r, ls), t, group, owed)
    decreases |s.cells| - p, 1, |ls|
  {
    if ls != [] {
      var l := ls[0];
      var s1 := FireOne(s, p, l, r);
      var rest := ls[1..];
      var owed' := if RaceStep(t) in rest then owed + {p} else owed;
      if l == RaceStep(t) {
        RaceDueFireOne(s, p, l, r, t, group, owed);
        RaceDueMore(s1, t, group, owed, owed');
      } else {
        assert RaceStep(t) in ls <==> RaceStep(t) in rest by {
          assert ls == [l] + rest;
        }
        RaceDueFireOne(s, p, l, r, t, group, owed');
      }
      RaceWiringKept(s, s1, t, group);
      assert Coherent(s.cells[p]);
      RaceDueFire(s1, p, r, rest, t, group, owed);
    }
  }

  lemma {:induction false} RaceDueFireOne<A, E>(s: Snapshot<A, E>, p: nat, l: Listener<A>, r: Result<A, E>, t: nat, group: seq<nat>, owed: set<nat>)
    requires Consistent(s) && p < |s.cells| && !r.Undefined? && s.cells[p].result == r
    requires Fits(l, p, |s.cells|)
    requires l.target == t ==> l == RaceStep(t) && p in group
    requires RaceWired(s, t, group) && RaceRegistered(s, t, group)
    requires RaceDue(s, t, group, if l == RaceStep(t) then owed + {p} else owed)
    ensures RaceDue(FireOne(s, p, l, r), t, group, owed)
    decreases |s.cells| - p, 0, 0
  {
    match l
    case ThenStep(q, f, _) =>
      if r.Value? {
        RaceDueSettle(s, q, Value(f(r.value)), t, group, owed);
      } else {
        RaceDueSettle(s, q, r, t, group, owed);
      }
    case AllStep(q, g) =>
      if r.Error? {
        RaceDueSettle(s, q, r, t, group, owed);
      } else if CountFulfilled(s.cells, g) == |g| {
        RaceDueSettle(s, q, Value(List(FlatValues(s.cells, g))), t, group, owed);
      }
    case RaceStep(q) =>
      if q != t {
        RaceDueSettle(s, q, r, t, group, owed);
      }
  }

  /** Excusing more sources asks less of `t`. */
  lemma RaceDueMore<A, E>(s: Snapshot<A, E>, t: nat, group: seq<nat>, owed: set<nat>, more: set<nat>)
    requires t < |s.cells| && Exist(s, group) && owed <= more
    requires RaceDue(s, t, group, owed)
    ensures RaceDue(s, t, group, more)
  {
  }

  /** The first settled source, in input order. */
  lemma {:induction false} FirstSettled<A, E>(s: Snapshot<A, E>, group: seq<nat>) returns (j: nat)
    requires Exist(s, group)
    requires exists i :: 0 <= i < |group| && s.cells[group[i]].state != Pending
    ensures j < |group| && s.cells[group[j]].state != Pending
    ensures forall i :: 0 <= i < j ==> s.cells[group[i]].state == Pending
    decreases |group|
  {
    if s.cells[group[0]].state != Pending {
      j := 0;
    } else {
      var i :| 0 <= i < |group| && s.cells[group[i]].state != Pending;
      assert group[1..][i - 1] == group[i];
      var j' := FirstSettled(s, group[1..]);
      j := j' + 1;
    }
  }

  /** `race` returns a promise that is due: settled at once when a source
      already is. */
  lemma RaceOfDue<A, E>(s: Snapshot<A, E>, group: seq<nat>)
    requires Consistent(s) && Exist(s, group)
    ensures RaceDue(RaceOf(s, group), |s.cells|, group, {})
  {
    var s' := RaceOf(s, group);
    var t := |s.cells|;
    RegisterEachLeavesRest(Create(s), group, RaceStep(t));
    assert forall j :: 0 <= j < |group| ==> s'.cells[group[j]].state == s.cells[group[j]].state;
    if exists j :: 0 <= j < |group| && s'.cells[group[j]].state != Pending {
      var j := FirstSettled(s, group);
      RaceAdoptsAtOnce(s, group, j);
      assert Coherent(s.cells[group[j]]);
    }
  }

  /** Whatever cascade a settlement sets off, once it is over the `race` promise
      is settled as soon as one of its sources is, directly or through another
      promise's chain, and it holds the outcome of a settled source. */
  lemma RaceOutcomeAfterSettle<A, E>(s: Snapshot<A, E>, p: nat, r: Result<A, E>, t: nat, group: seq<nat>)
    requires Consistent(s) && p < |s.cells| && !r.Undefined?
    requires RaceInv(s, t, group) && RaceRegistered(s, t, group) && RaceDue(s, t, group, {})
    requires p == t ==> Adopted(s, group, r)
    ensures var s' := Settle(s, p, r);
      && RaceInv(s', t, group) && RaceRegistered(s', t, group) && RaceDue(s', t, group, {})
      && ((exists j :: 0 <= j < |group| && s'.cells[group[j]].state != Pending) ==>
            && s'.cells[t].state != Pending
            && exists i :: 0 <= i < |group| && s'.cells[group[i]].state != Pending && s'.cells[t].result == s'.cells[group[i]].result)
  {
    var s' := Settle(s, p, r);
    RaceKeptBySettle(s, p, r, t, group);
    RaceDueSettle(s, p, r, t, group, {});
    if exists j :: 0 <= j < |group| && s'.cells[group[j]].state != Pending {
      assert Coherent(s'.cells[t]);
      var i :| 0 <= i < |group| && s'.cells[group[i]].result == s'.cells[t].result;
      assert Coherent(s'.cells[group[i]]);
    }
  }

  /** Creating a promise keeps `t` due. */
  lemma RaceDueKeptByCreate<A, E>(s: Snapshot<A, E>, t: nat, group: seq<nat>)
    requires Consistent(s) && RaceInv(s, t, group) && RaceDue(s, t, group, {})
    ensures RaceDue(Create(s), t, group, {})
  {
  }

  /** A registration aimed at another promise keeps `t` due. */
  lemma RaceDueKeptByRegister<A, E>(s: Snapshot<A, E>, p: nat, l: Listener<A>, t: nat, group: seq<nat>)
    requires Consistent(s) && p < |s.cells| && Fits(l, p, |s.cells|) && l.target != t
    requires RaceInv(s, t, group) && RaceRegistered(s, t, group) && RaceDue(s, t, group, {})
    ensures RaceDue(Register(s, p, l), t, group, {})
  {
    if s.cells[p].state != Pending {
      assert l != RaceStep(t);
      RaceDueFireOne(s, p, l, s.cells[p].result, t, group, {});
    }
  }

  /** Registering a listener aimed at another promise on each of `ps` keeps `t`
      due. */
  lemma {:induction false} RaceDueKeptByRegisterEach<A, E>(s: Snapshot<A, E>, ps: seq<nat>, l: Listener<A>, t: nat, group: seq<nat>)
    requires Consistent(s) && Aims(l, |s.cells|) && (forall j :: 0 <= j < |ps| ==> ps[j] < l.target) && l.target != t
    requires RaceInv(s, t, group) && RaceRegistered(s, t, group) && RaceDue(s, t, group, {})
    ensures RaceDue(RegisterEach(s, ps, l), t, group, {})
    decreases |ps|
  {
    if ps != [] {
      RaceKeptByRegister(s, ps[0], l, t, group);
      RaceDueKeptByRegister(s, ps[0], l, t, group);
      RaceDueKeptByRegisterEach(Register(s, ps[0], l), ps[1..], l, t, group);
    }
  }

  /** `then`, `catch`, an `all`, another `race`, `resolve`, `reject` and
      `Promise(p)` keep `t` due. */
  lemma RaceDueKeptByOperations<A, E>(s: Snapshot<A, E>, p: nat, f: Val<A> -> Val<A>, observed: bool, other: seq<nat>, r: Result<A, E>, t: nat, group: seq<nat>)
    requires Consistent(s) && p < |s.cells| && Exist(s, other) && (r.Value? || r.Error?)
    requires RaceInv(s, t, group) && RaceRegistered(s, t, group) && RaceDue(s, t, group, {})
    ensures RaceDue(ThenOn(s, p, f, observed), t, group, {}) && RaceDue(CatchOn(s, p), t, group, {})
    ensures RaceDue(AllOf(s, other), t, group, {}) && RaceDue(RaceOf(s, other), t, group, {})
    ensures r.Value? ==> RaceDue(Resolve(s, r.value), t, group, {})
    ensures r.Error? ==> RaceDue(Reject(s, r.error), t, group, {})
    ensures s.cells[p].state != Pending ==> RaceDue(CopyOf(s, p), t, group, {})
  {
    var s0 := Create(s);
    var n := |s.cells|;
    RaceKeptByCreate(s, t, group);
    RaceDueKeptByCreate(s, t, group);
    RaceDueKeptByRegister(s0, p, ThenStep(n, f, observed), t, group);
    RaceDueKeptByRegister(s0, p, ThenStep(n, Identity, true), t, group);
    RaceDueKeptByRegisterEach(s0, other, AllStep(n, other), t, group);
    RaceDueKeptByRegisterEach(s0, other, RaceStep(n), t, group);
    RaceDueSettle(s0, n, r, t, group, {});
    if s.cells[p].state != Pending {
      assert Coherent(s.cells[p]);
      RaceDueSettle(s0, n, s.cells[p].result, t, group, {});
    }
  }

  /** `race([])` has no source to hear from: no settlement of another promise, with
      all it sets off, ever changes it, so it stays pending for good. */
  lemma RaceEmptyStaysPending<A, E>(s: Snapshot<A, E>, p: nat, r: Result<A, E>, t: nat)
    requires Consistent(s) && RaceInv(s, t, []) && p < |s.cells| && p != t && !r.Undefined?
    ensures Settle(s, p, r).cells[t] == s.cells[t]
  {
    assert Unaimed(s, {t}) by {
      forall i, k | 0 <= i < |s.cells| && 0 <= k < |s.cells[i].listeners|
        ensures s.cells[i].listeners[k].target != t
      {
        if s.cells[i].listeners[k].target == t {
          assert false;
        }
      }
    }
    SettleFrame(s, p, r, {t});
  }
}

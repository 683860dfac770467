/** `Promise.all`: the promise it returns is fulfilled only with every source's
    value, in the order the sources were given, and rejected only with the error
    of one of its sources. */
module AllCombinator {
  import opened PromiseTypes
  import opened Semantics
  import opened Cascade

  /** Every promise of `group` holds a value. */
  ghost predicate AllValues<A, E>(s: Snapshot<A, E>, group: seq<nat>)
    requires Exist(s, group)
  {
    forall j :: 0 <= j < |group| ==> s.cells[group[j]].result.Value?
  }

  /** Outcome `r` is one `all(group)` may hold: nothing yet, the list of every
      source's value in input order, or the error of some source. */
  ghost predicate Justified<A, E>(s: Snapshot<A, E>, group: seq<nat>, r: Result<A, E>)
    requires Exist(s, group)
  {
    && (r.Value? ==> AllValues(s, group) && r.value == List(ValuesOf(s.cells, group)))
    && (r.Error? ==> exists j :: 0 <= j < |group| && s.cells[group[j]].result == r)
  }

  /** `t` is the promise `all(group)` returned: its sources are older than it, and
      the only listeners aimed at it are the `all` listeners on its sources. */
  ghost predicate AllWired<A, E>(s: Snapshot<A, E>, t: nat, group: seq<nat>)
  {
    && t < |s.cells|
    && (forall j :: 0 <= j < |group| ==> group[j] < t)
    && (forall i, k :: 0 <= i < |s.cells| && 0 <= k < |s.cells[i].listeners| && s.cells[i].listeners[k].target == t ==>
          s.cells[i].listeners[k] == AllStep(t, group) && i in group)
  }

  /** The invariant of an `all` promise. */
  ghost predicate AllInv<A, E>(s: Snapshot<A, E>, t: nat, group: seq<nat>)
  {
    AllWired(s, t, group) && Justified(s, group, s.cells[t].result)
  }

  /** Every still-pending source carries the `all` listener. */
  ghost predicate AllRegistered<A, E>(s: Snapshot<A, E>, t: nat, group: seq<nat>)
    requires Exist(s, group)
  {
    forall j :: 0 <= j < |group| && s.cells[group[j]].state == Pending ==>
      exists k :: 0 <= k < |s.cells[group[j]].listeners| && s.cells[group[j]].listeners[k] == AllStep(t, group)
  }

  /** What a justified outcome refers to is settled, so it survives any step
      that leaves settled promises alone. */
  lemma JustifiedKept<A, E>(s: Snapshot<A, E>, s': Snapshot<A, E>, group: seq<nat>, r: Result<A, E>)
    requires AllCoherent(s) && Exist(s, group) && |s.cells| <= |s'.cells| && Grows(s, s')
    requires Justified(s, group, r)
    ensures Exist(s', group) && Justified(s', group, r)
  {
    if r.Value? {
      assert forall j :: 0 <= j < |group| ==> s'.cells[group[j]] == s.cells[group[j]] by {
        forall j | 0 <= j < |group| ensures s'.cells[group[j]] == s.cells[group[j]] {
          assert Coherent(s.cells[group[j]]);
        }
      }
      assert ValuesOf(s'.cells, group) == ValuesOf(s.cells, group);
    }
    if r.Error? {
      var j :| 0 <= j < |group| && s.cells[group[j]].result == r;
      assert Coherent(s.cells[group[j]]);
      assert s'.cells[group[j]] == s.cells[group[j]];
    }
  }

  /** `flatMap` over a group of fulfilled promises drops nothing: it is the list of
      their values in group order. */
  lemma {:induction false} FlatValuesInOrder<A, E>(cells: seq<Cell<A, E>>, group: seq<nat>)
    requires forall j :: 0 <= j < |group| ==> group[j] < |cells| && cells[group[j]].result.Value?
    ensures FlatValues(cells, group) == ValuesOf(cells, group)
    decreases |group|
  {
    if group != [] {
      FlatValuesInOrder(cells, group[1..]);
      assert ValuesOf(cells, group) == [cells[group[0]].result.value] + ValuesOf(cells, group[1..]);
    }
  }

  /** Settlements keep the `all` invariant, provided a settlement of `t` itself
      is a justified one. */
  lemma {:induction false} AllSettle<A, E>(s: Snapshot<A, E>, p: nat, r: Result<A, E>, t: nat, group: seq<nat>)
    requires Consistent(s) && p < |s.cells| && !r.Undefined? && AllInv(s, t, group)
    requires p == t ==> Justified(s, group, r)
    ensures AllInv(Settle(s, p, r), t, group)
    decreases |s.cells| - p, 2, 0
  {
    if s.cells[p].state == Pending {
      var m := Mark(s, p, r);
      JustifiedKept(s, m, group, m.cells[t].result);
      AllFire(m, p, r, s.cells[p].listeners, t, group);
    }
  }

  lemma {:induction false} AllFire<A, E>(s: Snapshot<A, E>, p: nat, r: Result<A, E>, ls: seq<Listener<A>>, t: nat, group: seq<nat>)
    requires Consistent(s) && p < |s.cells| && !r.Undefined? && s.cells[p].result == r && AllInv(s, t, group)
    requires forall k :: 0 <= k < |ls| ==> Fits(ls[k], p, |s.cells|)
    requires forall k :: 0 <= k < |ls| && ls[k].target == t ==> ls[k] == AllStep(t, group) && p in group
    ensures AllInv(Fire(s, p, r, ls), t, group)
    decreases |s.cells| - p, 1, |ls|
  {
    if ls != [] {
      AllFireOne(s, p, ls[0], r, t, group);
      var s1 := FireOne(s, p, ls[0], r);
      assert Coherent(s.cells[p]);
      AllFire(s1, p, r, ls[1..], t, group);
    }
  }

  lemma {:induction false} AllFireOne<A, E>(s: Snapshot<A, E>, p: nat, l: Listener<A>, r: Result<A, E>, t: nat, group: seq<nat>)
    requires Consistent(s) && p < |s.cells| && !r.Undefined? && s.cells[p].result == r && AllInv(s, t, group)
    requires Fits(l, p, |s.cells|)
    requires l.target == t ==> l == AllStep(t, group) && p in group
    ensures AllInv(FireOne(s, p, l, r), t, group)
    decreases |s.cells| - p, 0, 0
  {
    match l
    case ThenStep(q, f, _) =>
      if r.Value? {
        AllSettle(s, q, Value(f(r.value)), t, group);
      } else {
        AllSettle(s, q, r, t, group);
      }
    case AllStep(q, g) =>
      if r.Error? {
        if q == t {
          var j :| 0 <= j < |group| && group[j] == p;
          assert s.cells[group[j]].result == r;
        }
        AllSettle(s, q, r, t, group);
      } else if CountFulfilled(s.cells, g) == |g| {
        if q == t {
          forall j | 0 <= j < |group| ensures s.cells[group[j]].result.Value? {
            assert Coherent(s.cells[group[j]]);
          }
          FlatValuesInOrder(s.cells, group);
        }
        AllSettle(s, q, Value(List(FlatValues(s.cells, g))), t, group);
      }
    case RaceStep(q) =>
      AllSettle(s, q, r, t, group);
  }

  /** A settled `all` promise whose sources are all fulfilled holds their values
      in input order. */
  lemma SettledAllFulfilled<A, E>(s: Snapshot<A, E>, t: nat, group: seq<nat>)
    requires AllCoherent(s) && AllInv(s, t, group) && s.cells[t].state != Pending
    requires forall j :: 0 <= j < |group| ==> s.cells[group[j]].state == Fulfilled
    ensures AllValues(s, group)
    ensures s.cells[t].state == Fulfilled && s.cells[t].result == Value(List(ValuesOf(s.cells, group)))
  {
    forall j | 0 <= j < |group| ensures s.cells[group[j]].result.Value? {
      assert Coherent(s.cells[group[j]]);
    }
    assert !s.cells[t].result.Error?;
    assert Coherent(s.cells[t]);
  }

  /** The `all` listener of the last pending source runs once that source is
      fulfilled, and settles the `all` promise. */
  lemma AllReachedOnLast<A, E>(s: Snapshot<A, E>, g: nat, v: Val<A>, k: nat, t: nat, group: seq<nat>)
    requires Consistent(s) && AllWired(s, t, group)
    requires g < |s.cells| && s.cells[g].state == Pending
    requires k < |s.cells[g].listeners| && s.cells[g].listeners[k] == AllStep(t, group)
    requires forall j :: 0 <= j < |group| && group[j] != g ==> s.cells[group[j]].state == Fulfilled
    ensures Settle(s, g, Value(v)).cells[t].state != Pending
  {
    var r: Result<A, E> := Value(v);
    var ls := s.cells[g].listeners;
    var m := Mark(s, g, r);
    MarkedChainFits(s, g, r);
    ChainAt(m, g, r, ls, k);
    var s1 := Fire(m, g, r, ls[..k]);
    MarkedGroupFulfilled(s, g, r, t, group);
    assert forall j :: 0 <= j < |group| ==> s1.cells[group[j]] == m.cells[group[j]];
    AllStepSettles(s1, g, t, group, r);
  }

  /** The chain of a pending promise still fits once its outcome is stored. */
  lemma MarkedChainFits<A, E>(s: Snapshot<A, E>, g: nat, r: Result<A, E>)
    requires Consistent(s) && g < |s.cells|
    ensures forall j :: 0 <= j < |s.cells[g].listeners| ==> Fits(s.cells[g].listeners[j], g, |Mark(s, g, r).cells|)
  {
  }

  /** Storing a value in the last pending source leaves every source fulfilled. */
  lemma MarkedGroupFulfilled<A, E>(s: Snapshot<A, E>, g: nat, r: Result<A, E>, t: nat, group: seq<nat>)
    requires Consistent(s) && AllWired(s, t, group) && g < |s.cells| && r.Value?
    requires forall j :: 0 <= j < |group| && group[j] != g ==> s.cells[group[j]].state == Fulfilled
    ensures forall j :: 0 <= j < |group| ==> Mark(s, g, r).cells[group[j]].state == Fulfilled
  {
  }

  /** An `all` listener given a value once every source is fulfilled settles its target. */
  lemma AllStepSettles<A, E>(s: Snapshot<A, E>, p: nat, t: nat, group: seq<nat>, r: Result<A, E>)
    requires WellFormed(s) && p < |s.cells| && r.Value? && Fits(Listener<A>.AllStep(t, group), p, |s.cells|)
    requires forall j :: 0 <= j < |group| ==> s.cells[group[j]].state == Fulfilled
    ensures FireOne(s, p, Listener<A>.AllStep(t, group), r).cells[t].state != Pending
  {
    assert CountFulfilled(s.cells, group) == |group|;
  }

  /** The last pending source of `all` is fulfilled with `v`: the `all` promise is
      fulfilled with every source's value, in input order, `v` in the place of
      that source. */
  lemma AllFulfilsOnLast<A, E>(s: Snapshot<A, E>, g: nat, v: Val<A>, k: nat, t: nat, group: seq<nat>)
    requires Consistent(s) && AllInv(s, t, group)
    requires g < |s.cells| && s.cells[g].state == Pending
    requires k < |s.cells[g].listeners| && s.cells[g].listeners[k] == AllStep(t, group)
    requires forall j :: 0 <= j < |group| && group[j] != g ==> s.cells[group[j]].state == Fulfilled
    ensures var s' := Settle(s, g, Value(v));
      && s'.cells[t].state == Fulfilled
      && AllValues(s', group)
      && s'.cells[t].result == Value(List(ValuesOf(s'.cells, group)))
      && (forall j :: 0 <= j < |group| ==>
            ValuesOf(s'.cells, group)[j] == if group[j] == g then v else s.cells[group[j]].result.value)
  {
    var s' := Settle(s, g, Value(v));
    assert g in group;
    assert g != t;
    AllSettle(s, g, Value(v), t, group);
    AllReachedOnLast(s, g, v, k, t, group);
    SettledAllFulfilled(s', t, group);
    forall j | 0 <= j < |group|
      ensures ValuesOf(s'.cells, group)[j] == if group[j] == g then v else s.cells[group[j]].result.value
    {
      if group[j] != g {
        assert Coherent(s.cells[group[j]]);
      }
    }
  }

  /** Registering the `all` listener on the sources `ps`, the tail of `group`
      still to go, keeps the invariant and leaves it on every pending source. */
  lemma {:induction false} RegisterEachAll<A, E>(s: Snapshot<A, E>, ps: seq<nat>, t: nat, group: seq<nat>)
    requires Consistent(s) && AllInv(s, t, group)
    requires |ps| <= |group| && ps == group[|group| - |ps|..]
    requires forall j :: 0 <= j < |group| - |ps| && s.cells[group[j]].state == Pending ==>
      exists k :: 0 <= k < |s.cells[group[j]].listeners| && s.cells[group[j]].listeners[k] == AllStep(t, group)
    ensures var s' := RegisterEach(s, ps, AllStep(t, group));
      AllInv(s', t, group) && AllRegistered(s', t, group)
    decreases |ps|
  {
    var l := AllStep(t, group);
    if ps != [] {
      var g := ps[0];
      var s1 := Register(s, g, l);
      var n := |group| - |ps|;
      assert group[n] == g;
      if s.cells[g].state == Pending {
        assert AllWired(s1, t, group) by {
          forall i, k | 0 <= i < |s1.cells| && 0 <= k < |s1.cells[i].listeners| && s1.cells[i].listeners[k].target == t
            ensures s1.cells[i].listeners[k] == l && i in group
          {
            if i == g && k == |s.cells[g].listeners| {
              assert group[n] == i;
            } else {
              assert s1.cells[i].listeners[k] == s.cells[i].listeners[k];
            }
          }
        }
        assert s1.cells[t] == s.cells[t];
        JustifiedKept(s, s1, group, s1.cells[t].result);
        forall j | 0 <= j < n + 1 && s1.cells[group[j]].state == Pending
          ensures exists k :: 0 <= k < |s1.cells[group[j]].listeners| && s1.cells[group[j]].listeners[k] == l
        {
          if group[j] == g {
            assert s1.cells[g].listeners[|s.cells[g].listeners|] == l;
          } else {
            var k :| 0 <= k < |s.cells[group[j]].listeners| && s.cells[group[j]].listeners[k] == l;
            assert s1.cells[group[j]].listeners[k] == l;
          }
        }
      } else {
        assert g in group;
        AllFireOne(s, g, l, s.cells[g].result, t, group);
        forall j | 0 <= j < n + 1 && s1.cells[group[j]].state == Pending
          ensures exists k :: 0 <= k < |s1.cells[group[j]].listeners| && s1.cells[group[j]].listeners[k] == l
        {
          assert s.cells[group[j]].state == Pending;
          var k :| 0 <= k < |s.cells[group[j]].listeners| && s.cells[group[j]].listeners[k] == l;
          assert s1.cells[group[j]].listeners[k] == l;
        }
      }
      assert ps[1..] == group[n + 1..];
      RegisterEachAll(s1, ps[1..], t, group);
    }
  }

  /** `all(group)` returns a promise that keeps the invariant and is listened for
      by every source that is still pending. */
  lemma AllOfEstablishes<A, E>(s: Snapshot<A, E>, group: seq<nat>)
    requires Consistent(s) && Exist(s, group)
    ensures var s' := AllOf(s, group);
      AllInv(s', |s.cells|, group) && AllRegistered(s', |s.cells|, group)
  {
    var s0 := Create(s);
    var t := |s.cells|;
    assert AllWired(s0, t, group) by {
      forall i, k | 0 <= i < |s0.cells| && 0 <= k < |s0.cells[i].listeners|
        ensures s0.cells[i].listeners[k].target != t
      {
        assert Fits(s.cells[i].listeners[k], i, |s.cells|);
      }
    }
    RegisterEachAll(s0, group, t, group);
  }

  /** Registration in order reaches a settled source: the target of `l` is settled
      by then, unless `l` is an `all` listener whose group is not yet all fulfilled. */
  lemma {:induction false} RegisterEachSettles<A, E>(s: Snapshot<A, E>, ps: seq<nat>, l: Listener<A>, j: nat)
    requires Consistent(s) && Aims(l, |s.cells|) && (forall i :: 0 <= i < |ps| ==> ps[i] < l.target)
    requires j < |ps| && s.cells[ps[j]].state != Pending
    requires l.AllStep? && s.cells[ps[j]].state == Fulfilled ==>
      forall i :: 0 <= i < |l.group| ==> s.cells[l.group[i]].state == Fulfilled
    ensures RegisterEach(s, ps, l).cells[l.target].state != Pending
    decreases |ps|
  {
    var s1 := Register(s, ps[0], l);
    if j == 0 {
      assert Coherent(s.cells[ps[0]]);
      assert s1.cells[l.target].state != Pending;
    } else {
      RegisterEachSettles(s1, ps[1..], l, j - 1);
    }
  }

  /** A source already rejected when `all` is called: the `all` promise is
      rejected at once, with the error of one of its sources. */
  lemma AllRejectsAtOnce<A, E>(s: Snapshot<A, E>, group: seq<nat>, j: nat)
    requires Consistent(s) && Exist(s, group)
    requires j < |group| && s.cells[group[j]].state == Rejected
    ensures var s' := AllOf(s, group);
      && s'.cells[|s.cells|].state == Rejected
      && exists i :: 0 <= i < |group| && s'.cells[group[i]].state == Rejected && s'.cells[|s.cells|].result == s'.cells[group[i]].result
  {
    var t := |s.cells|;
    var s' := AllOf(s, group);
    AllOfEstablishes(s, group);
    RegisterEachSettles(Create(s), group, AllStep(t, group), j);
    SettledAllRejected(s, s', t, group, j);
  }

  /** A settled `all` promise one of whose sources is rejected is rejected, with
      the error of a rejected source. */
  lemma SettledAllRejected<A, E>(s: Snapshot<A, E>, s': Snapshot<A, E>, t: nat, group: seq<nat>, j: nat)
    requires AllCoherent(s) && AllCoherent(s') && Exist(s, group) && |s.cells| <= |s'.cells| && Grows(s, s')
    requires AllInv(s', t, group) && s'.cells[t].state != Pending
    requires j < |group| && s.cells[group[j]].state == Rejected
    ensures s'.cells[t].state == Rejected
    ensures exists i :: 0 <= i < |group| && s'.cells[group[i]].state == Rejected && s'.cells[t].result == s'.cells[group[i]].result
  {
    assert s'.cells[group[j]] == s.cells[group[j]];
    assert Coherent(s.cells[group[j]]);
    assert Coherent(s'.cells[t]);
    assert !s'.cells[t].result.Value?;
    var i :| 0 <= i < |group| && s'.cells[group[i]].result == s'.cells[t].result;
    assert Coherent(s'.cells[group[i]]);
  }

  /** Every source already fulfilled when `all` is called on a non-empty group: the
      `all` promise is fulfilled at once with their values in input order. */
  lemma AllFulfilsAtOnce<A, E>(s: Snapshot<A, E>, group: seq<nat>)
    requires Consistent(s) && Exist(s, group) && group != []
    requires forall j :: 0 <= j < |group| ==> s.cells[group[j]].state == Fulfilled
    ensures var s' := AllOf(s, group);
      && AllValues(s, group)
      && s'.cells[|s.cells|] == Cell(Fulfilled, Value(List(ValuesOf(s.cells, group))), [])
  {
    var t := |s.cells|;
    var s0 := Create(s);
    var s' := AllOf(s, group);
    AllOfEstablishes(s, group);
    RegisterEachSettles(s0, group, AllStep(t, group), 0);
    forall j | 0 <= j < |group| ensures s'.cells[group[j]] == s.cells[group[j]] {
      assert Coherent(s.cells[group[j]]);
    }
    SettledAllFulfilled(s', t, group);
    assert ValuesOf(s'.cells, group) == ValuesOf(s.cells, group);
    assert s0.cells[t].listeners == [];
  }

  /** `all` listeners given a value while some source of theirs is not fulfilled
      do nothing. */
  lemma {:induction false} AllStepsWait<A, E>(s: Snapshot<A, E>, p: nat, r: Result<A, E>, ls: seq<Listener<A>>, t: nat, group: seq<nat>, j: nat)
    requires WellFormed(s) && p < |s.cells| && r.Value?
    requires forall k :: 0 <= k < |ls| ==> Fits(ls[k], p, |s.cells|) && ls[k] == AllStep(t, group)
    requires j < |group| && group[j] < |s.cells| && s.cells[group[j]].state != Fulfilled
    ensures Fire(s, p, r, ls) == s
    decreases |ls|
  {
    if ls != [] {
      assert FireOne(s, p, ls[0], r) == s;
      AllStepsWait(s, p, r, ls[1..], t, group, j);
    }
  }

  /** A source of `all` whose only registrations are `all` listeners, fulfilled
      while another source is still pending: nothing changes but the source. */
  lemma AllWaitsForEverySource<A, E>(s: Snapshot<A, E>, p: nat, v: Val<A>, t: nat, group: seq<nat>, j: nat)
    requires WellFormed(s) && p < |s.cells| && s.cells[p].state == Pending
    requires forall k :: 0 <= k < |s.cells[p].listeners| ==> s.cells[p].listeners[k] == AllStep(t, group)
    requires j < |group| && group[j] < |s.cells| && group[j] != p && s.cells[group[j]].state == Pending
    ensures Settle(s, p, Value(v)) == Mark(s, p, Value(v))
  {
    var m := Mark(s, p, Value(v));
    var ls := s.cells[p].listeners;
    assert forall k :: 0 <= k < |ls| ==> Fits(ls[k], p, |m.cells|) by {
      forall k | 0 <= k < |ls| ensures Fits(ls[k], p, |m.cells|) {
        assert Fits(s.cells[p].listeners[k], p, |s.cells|);
      }
    }
    AllStepsWait(m, p, Value(v), ls, t, group, j);
  }

  /** Every pending source still carries the `all` listener after any step that
      leaves settled promises alone and drops no registration. */
  lemma AllRegisteredKept<A, E>(s: Snapshot<A, E>, s': Snapshot<A, E>, t: nat, group: seq<nat>)
    requires Exist(s, group) && |s.cells| <= |s'.cells| && Grows(s, s') && ChainsGrow(s, s')
    requires AllRegistered(s, t, group)
    ensures Exist(s', group) && AllRegistered(s', t, group)
  {
    forall j | 0 <= j < |group| && s'.cells[group[j]].state == Pending
      ensures exists k :: 0 <= k < |s'.cells[group[j]].listeners| && s'.cells[group[j]].listeners[k] == AllStep(t, group)
    {
      var i := group[j];
      assert s.cells[i].state == Pending;
      var k :| 0 <= k < |s.cells[i].listeners| && s.cells[i].listeners[k] == AllStep(t, group);
      assert s.cells[i].listeners <= s'.cells[i].listeners;
      assert s'.cells[i].listeners[k] == AllStep(t, group);
    }
  }

  /** Creating a promise keeps the `all` invariant and its registrations. */
  lemma AllKeptByCreate<A, E>(s: Snapshot<A, E>, t: nat, group: seq<nat>)
    requires Consistent(s) && AllInv(s, t, group) && AllRegistered(s, t, group)
    ensures AllInv(Create(s), t, group) && AllRegistered(Create(s), t, group)
  {
    var s' := Create(s);
    assert forall i :: 0 <= i < |s.cells| ==> s'.cells[i] == s.cells[i];
    JustifiedKept(s, s', group, s.cells[t].result);
  }

  /** A settlement keeps the `all` invariant and its registrations, provided a
      settlement of `t` itself is a justified one. */
  lemma AllKeptBySettle<A, E>(s: Snapshot<A, E>, p: nat, r: Result<A, E>, t: nat, group: seq<nat>)
    requires Consistent(s) && p < |s.cells| && !r.Undefined? && AllInv(s, t, group) && AllRegistered(s, t, group)
    requires p == t ==> Justified(s, group, r)
    ensures AllInv(Settle(s, p, r), t, group) && AllRegistered(Settle(s, p, r), t, group)
  {
    AllSettle(s, p, r, t, group);
    SettleChainsGrow(s, p, r);
    AllRegisteredKept(s, Settle(s, p, r), t, group);
  }

  /** A registration aimed at another promise keeps the `all` invariant and its
      registrations. */
  lemma AllKeptByRegister<A, E>(s: Snapshot<A, E>, p: nat, l: Listener<A>, t: nat, group: seq<nat>)
    requires Consistent(s) && p < |s.cells| && Fits(l, p, |s.cells|) && l.target != t
    requires AllInv(s, t, group) && AllRegistered(s, t, group)
    ensures AllInv(Register(s, p, l), t, group) && AllRegistered(Register(s, p, l), t, group)
  {
    var s' := Register(s, p, l);
    RegisterChainsGrow(s, p, l);
    AllRegisteredKept(s, s', t, group);
    if s.cells[p].state == Pending {
      assert AllWired(s', t, group) by {
        forall i, k | 0 <= i < |s'.cells| && 0 <= k < |s'.cells[i].listeners| && s'.cells[i].listeners[k].target == t
          ensures s'.cells[i].listeners[k] == AllStep(t, group) && i in group
        {
          if i != p || k < |s.cells[p].listeners| {
            assert s'.cells[i].listeners[k] == s.cells[i].listeners[k];
          }
        }
      }
      assert s'.cells[t].result == s.cells[t].result;
      JustifiedKept(s, s', group, s.cells[t].result);
    } else {
      AllFireOne(s, p, l, s.cells[p].result, t, group);
    }
  }

  /** Registering a listener aimed at another promise on each of `ps` keeps the
      `all` invariant and its registrations. */
  lemma {:induction false} AllKeptByRegisterEach<A, E>(s: Snapshot<A, E>, ps: seq<nat>, l: Listener<A>, t: nat, group: seq<nat>)
    requires Consistent(s) && Aims(l, |s.cells|) && (forall j :: 0 <= j < |ps| ==> ps[j] < l.target) && l.target != t
    requires AllInv(s, t, group) && AllRegistered(s, t, group)
    ensures AllInv(RegisterEach(s, ps, l), t, group) && AllRegistered(RegisterEach(s, ps, l), t, group)
    decreases |ps|
  {
    if ps != [] {
      AllKeptByRegister(s, ps[0], l, t, group);
      AllKeptByRegisterEach(Register(s, ps[0], l), ps[1..], l, t, group);
    }
  }

  /** `then` and `catch` on any promise keep the `all` invariant and its
      registrations. */
  lemma AllKeptByThen<A, E>(s: Snapshot<A, E>, p: nat, f: Val<A> -> Val<A>, observed: bool, t: nat, group: seq<nat>)
    requires Consistent(s) && p < |s.cells| && AllInv(s, t, group) && AllRegistered(s, t, group)
    ensures AllInv(ThenOn(s, p, f, observed), t, group) && AllRegistered(ThenOn(s, p, f, observed), t, group)
    ensures AllInv(CatchOn(s, p), t, group) && AllRegistered(CatchOn(s, p), t, group)
  {
    AllKeptByCreate(s, t, group);
    AllKeptByRegister(Create(s), p, ThenStep(|s.cells|, f, observed), t, group);
    AllKeptByRegister(Create(s), p, ThenStep(|s.cells|, Identity, true), t, group);
  }

  /** Another `all` or a `race` keeps the `all` invariant and its registrations. */
  lemma AllKeptByCombinators<A, E>(s: Snapshot<A, E>, other: seq<nat>, t: nat, group: seq<nat>)
    requires Consistent(s) && Exist(s, other) && AllInv(s, t, group) && AllRegistered(s, t, group)
    ensures AllInv(AllOf(s, other), t, group) && AllRegistered(AllOf(s, other), t, group)
    ensures AllInv(RaceOf(s, other), t, group) && AllRegistered(RaceOf(s, other), t, group)
  {
    AllKeptByCreate(s, t, group);
    AllKeptByRegisterEach(Create(s), other, AllStep(|s.cells|, other), t, group);
    AllKeptByRegisterEach(Create(s), other, RaceStep(|s.cells|), t, group);
  }

  /** `resolve`, `reject` and `Promise(p)` keep the `all` invariant and its
      registrations. */
  lemma AllKeptByConstructors<A, E>(s: Snapshot<A, E>, r: Result<A, E>, t: nat, group: seq<nat>)
    requires Consistent(s) && AllInv(s, t, group) && AllRegistered(s, t, group)
    requires r.Value? || r.Error?
    ensures r.Value? ==> AllInv(Resolve(s, r.value), t, group) && AllRegistered(Resolve(s, r.value), t, group)
    ensures r.Error? ==> AllInv(Reject(s, r.error), t, group) && AllRegistered(Reject(s, r.error), t, group)
    ensures forall q :: 0 <= q < |s.cells| && s.cells[q].state != Pending ==>
      AllInv(CopyOf(s, q), t, group) && AllRegistered(CopyOf(s, q), t, group)
  {
    AllKeptByCreate(s, t, group);
    AllKeptBySettle(Create(s), |s.cells|, r, t, group);
    forall q | 0 <= q < |s.cells| && s.cells[q].state != Pending
      ensures AllInv(CopyOf(s, q), t, group) && AllRegistered(CopyOf(s, q), t, group)
    {
      assert Coherent(s.cells[q]);
      AllKeptBySettle(Create(s), |s.cells|, s.cells[q].result, t, group);
    }
  }

  /** The last pending source of a registered `all` promise is fulfilled with `v`:
      the `all` promise is fulfilled with every source's value, in input order. */
  lemma AllFulfilsWhenLastSettles<A, E>(s: Snapshot<A, E>, j: nat, v: Val<A>, t: nat, group: seq<nat>)
    requires Consistent(s) && AllInv(s, t, group) && AllRegistered(s, t, group)
    requires j < |group| && s.cells[group[j]].state == Pending
    requires forall i :: 0 <= i < |group| && group[i] != group[j] ==> s.cells[group[i]].state == Fulfilled
    ensures var s' := Settle(s, group[j], Value(v));
      && s'.cells[t].state == Fulfilled
      && AllValues(s', group)
      && s'.cells[t].result == Value(List(ValuesOf(s'.cells, group)))
  {
    var g := group[j];
    var k :| 0 <= k < |s.cells[g].listeners| && s.cells[g].listeners[k] == AllStep(t, group);
    AllFulfilsOnLast(s, g, v, k, t, group);
  }

  /** A source of a registered, still pending `all` promise is rejected with `e`:
      the `all` promise is rejected with `e`. The first rejection to arrive wins. */
  lemma AllRejectsWhenSourceRejects<A, E>(s: Snapshot<A, E>, j: nat, e: E, t: nat, group: seq<nat>)
    requires Consistent(s) && AllInv(s, t, group) && AllRegistered(s, t, group)
    requires j < |group| && s.cells[group[j]].state == Pending && s.cells[t].state == Pending
    ensures Settle(s, group[j], Error(e)).cells[t] == Cell(Rejected, Error(e), s.cells[t].listeners)
  {
    var g := group[j];
    var k :| 0 <= k < |s.cells[g].listeners| && s.cells[g].listeners[k] == AllStep(t, group);
    DeliveredReject(s, g, e, k);
  }

  /** Registration runs in input order: when `ps[j]` is the first rejected source,
      with the earlier ones pending or fulfilled, the fresh `all` promise `t` is
      rejected with exactly its error. */
  lemma {:induction false} RegisterEachAllFirstRejected<A, E>(s: Snapshot<A, E>, ps: seq<nat>, t: nat, group: seq<nat>, j: nat)
    requires Consistent(s) && t < |s.cells| && s.cells[t] == NewCell()
    requires forall i :: 0 <= i < |group| ==> group[i] < t
    requires |ps| <= |group| && ps == group[|group| - |ps|..]
    requires j < |ps| && s.cells[ps[j]].state == Rejected
    requires forall i :: 0 <= i < j ==> s.cells[ps[i]].state != Rejected
    ensures RegisterEach(s, ps, AllStep(t, group)).cells[t] == Cell(Rejected, s.cells[ps[j]].result, [])
    decreases |ps|
  {
    var l := AllStep(t, group);
    var g := ps[0];
    var s1 := Register(s, g, l);
    assert ps[j] == group[|group| - |ps| + j];
    if j == 0 {
      assert Coherent(s.cells[g]);
      assert s1.cells[t] == Cell(Rejected, s.cells[g].result, []);
    } else {
      RegisterBeforeRejected(s, g, t, group, |group| - |ps| + j);
      assert ps[1..] == group[|group| - |ps[1..]|..];
      RegisterEachAllFirstRejected(s1, ps[1..], t, group, j - 1);
    }
  }

  /** Registering the `all` listener on a source that is not rejected, while
      `group[j]` is, changes no outcome and leaves the fresh target as it is. */
  lemma RegisterBeforeRejected<A, E>(s: Snapshot<A, E>, g: nat, t: nat, group: seq<nat>, j: nat)
    requires Consistent(s) && t < |s.cells| && s.cells[t] == NewCell()
    requires forall i :: 0 <= i < |group| ==> group[i] < t
    requires g < t && s.cells[g].state != Rejected
    requires j < |group| && s.cells[group[j]].state == Rejected
    ensures var s1 := Register(s, g, AllStep(t, group));
      && s1.cells[t] == NewCell()
      && forall i :: 0 <= i < |s.cells| ==> s1.cells[i].state == s.cells[i].state && s1.cells[i].result == s.cells[i].result
  {
    var s1 := Register(s, g, AllStep(t, group));
    if s.cells[g].state == Pending {
      assert s1 == s.(cells := s.cells[g := s.cells[g].(listeners := s.cells[g].listeners + [AllStep(t, group)])]);
    } else {
      assert Coherent(s.cells[g]);
      assert CountFulfilled(s.cells, group) != |group|;
    }
  }

  /** Sources already settled when `all` is called, the first rejected one in input
      order being `group[j]`: the `all` promise is rejected at once with its error. */
  lemma AllRejectsWithFirstError<A, E>(s: Snapshot<A, E>, group: seq<nat>, j: nat)
    requires Consistent(s) && Exist(s, group)
    requires j < |group| && s.cells[group[j]].state == Rejected
    requires forall i :: 0 <= i < j ==> s.cells[group[i]].state != Rejected
    ensures AllOf(s, group).cells[|s.cells|] == Cell(Rejected, s.cells[group[j]].result, [])
  {
    var s0 := Create(s);
    assert forall i :: 0 <= i < |s.cells| ==> s0.cells[i] == s.cells[i];
    RegisterEachAllFirstRejected(s0, group, |s.cells|, group, j);
  }

  /** `t` is settled once its sources call for it: every source fulfilled, in a
      non-empty group, or some source rejected. Sources in `owed` are not
      counted: their `all` listener is still to run, further up the cascade
      that is settling them. */
  ghost predicate AllDue<A, E>(s: Snapshot<A, E>, t: nat, group: seq<nat>, owed: set<nat>)
    requires t < |s.cells| && Exist(s, group)
  {
    ( || (|group| > 0 && forall j :: 0 <= j < |group| ==> group[j] !in owed && s.cells[group[j]].state == Fulfilled)
      || (exists j :: 0 <= j < |group| && group[j] !in owed && s.cells[group[j]].state == Rejected) )
    ==> s.cells[t].state != Pending
  }

  /** The wiring of `all` and its registrations only depend on the chains, so
      any step that keeps every chain and every settled promise keeps them. */
  lemma WiringKept<A, E>(s: Snapshot<A, E>, s': Snapshot<A, E>, t: nat, group: seq<nat>)
    requires AllWired(s, t, group) && AllRegistered(s, t, group)
    requires SameShape(s, s') && Grows(s, s')
    ensures AllWired(s', t, group) && AllRegistered(s', t, group)
  {
    forall j | 0 <= j < |group| && s'.cells[group[j]].state == Pending
      ensures exists k :: 0 <= k < |s'.cells[group[j]].listeners| && s'.cells[group[j]].listeners[k] == AllStep(t, group)
    {
      assert s.cells[group[j]].state == Pending;
      var k :| 0 <= k < |s.cells[group[j]].listeners| && s.cells[group[j]].listeners[k] == AllStep(t, group);
      assert s'.cells[group[j]].listeners[k] == AllStep(t, group);
    }
  }

  /** Settling any promise, with the whole cascade it sets off, keeps `t` due:
      a source settled anywhere in the cascade, directly or through the chain
      of another promise, has its `all` listener run after it settles. */
  lemma {:induction false} AllDueSettle<A, E>(s: Snapshot<A, E>, q: nat, r: Result<A, E>, t: nat, group: seq<nat>, owed: set<nat>)
    requires Consistent(s) && q < |s.cells| && !r.Undefined?
    requires AllWired(s, t, group) && AllRegistered(s, t, group) && AllDue(s, t, group, owed)
    ensures AllDue(Settle(s, q, r), t, group, owed)
    decreases |s.cells| - q, 2, 0
  {
    if s.cells[q].state == Pending && q != t {
      var ls := s.cells[q].listeners;
      var m := Mark(s, q, r);
      var owed' := if AllStep(t, group) in ls then owed + {q} else owed;
      WiringKept(s, m, t, group);
      if q in group {
        var j :| 0 <= j < |group| && group[j] == q;
        var k :| 0 <= k < |ls| && ls[k] == AllStep(t, group);
      }
      assert AllDue(m, t, group, owed') by {
        forall j | 0 <= j < |group| && group[j] !in owed' ensures m.cells[group[j]] == s.cells[group[j]] {
        }
      }
      AllDueFire(m, q, r, ls, t, group, owed);
    }
  }

  lemma {:induction false} AllDueFire<A, E>(s: Snapshot<A, E>, p: nat, r: Result<A, E>, ls: seq<Listener<A>>, t: nat, group: seq<nat>, owed: set<nat>)
    requires Consistent(s) && p < |s.cells| && !r.Undefined? && s.cells[p].result == r
    requires forall k :: 0 <= k < |ls| ==> Fits(ls[k], p, |s.cells|)
    requires forall k :: 0 <= k < |ls| && ls[k].target == t ==> ls[k] == AllStep(t, group) && p in group
    requires AllWired(s, t, group) && AllRegistered(s, t, group)
    requires AllDue(s, t, group, if AllStep(t, group) in ls then owed + {p} else owed)
    ensures AllDue(Fire(s, p, r, ls), t, group, owed)
    decreases |s.cells| - p, 1, |ls|
  {
    if ls != [] {
      var l := ls[0];
      var s1 := FireOne(s, p, l, r);
      var rest := ls[1..];
      var owed' := if AllStep(t, group) in rest then owed + {p} else owed;
      if l == AllStep(t, group) {
        AllDueFireOne(s, p, l, r, t, group, owed);
        AllDueMore(s1, t, group, owed, owed');
      } else {
        assert AllStep(t, group) in ls <==> AllStep(t, group) in rest by {
          assert ls == [l] + rest;
        }
        AllDueFireOne(s, p, l, r, t, group, owed');
      }
      WiringKept(s, s1, t, group);
      assert Coherent(s.cells[p]);
      AllDueFire(s1, p, r, rest, t, group, owed);
    }
  }

  lemma {:induction false} AllDueFireOne<A, E>(s: Snapshot<A, E>, p: nat, l: Listener<A>, r: Result<A, E>, t: nat, group: seq<nat>, owed: set<nat>)
    requires Consistent(s) && p < |s.cells| && !r.Undefined? && s.cells[p].result == r
    requires Fits(l, p, |s.cells|)
    requires l.target == t ==> l == AllStep(t, group) && p in group
    requires AllWired(s, t, group) && AllRegistered(s, t, group)
    requires AllDue(s, t, group, if l == AllStep(t, group) then owed + {p} else owed)
    ensures AllDue(FireOne(s, p, l, r), t, group, owed)
    decreases |s.cells| - p, 0, 0
  {
    match l
    case ThenStep(q, f, _) =>
      if r.Value? {
        AllDueSettle(s, q, Value(f(r.value)), t, group, owed);
      } else {
        AllDueSettle(s, q, r, t, group, owed);
      }
    case AllStep(q, g) =>
      if q == t {
        if r.Value? && CountFulfilled(s.cells, g) != |g| {
          assert Coherent(s.cells[p]);
        }
      } else if r.Error? {
        AllDueSettle(s, q, r, t, group, owed);
      } else if CountFulfilled(s.cells, g) == |g| {
        AllDueSettle(s, q, Value(List(FlatValues(s.cells, g))), t, group, owed);
      }
    case RaceStep(q) =>
      AllDueSettle(s, q, r, t, group, owed);
  }

  /** Excusing more sources asks less of `t`. */
  lemma AllDueMore<A, E>(s: Snapshot<A, E>, t: nat, group: seq<nat>, owed: set<nat>, more: set<nat>)
    requires t < |s.cells| && Exist(s, group) && owed <= more
    requires AllDue(s, t, group, owed)
    ensures AllDue(s, t, group, more)
  {
  }

  /** `all` returns a promise that is due: settled at once when its sources
      already call for it. */
  lemma AllOfDue<A, E>(s: Snapshot<A, E>, group: seq<nat>)
    requires Consistent(s) && Exist(s, group)
    ensures AllDue(AllOf(s, group), |s.cells|, group, {})
  {
    var s' := AllOf(s, group);
    var t := |s.cells|;
    var s0 := Create(s);
    RegisterEachLeavesRest(s0, group, AllStep(t, group));
    assert forall j :: 0 <= j < |group| ==> s'.cells[group[j]].state == s.cells[group[j]].state;
    if exists j :: 0 <= j < |group| && s'.cells[group[j]].state == Rejected {
      var j :| 0 <= j < |group| && s'.cells[group[j]].state == Rejected;
      AllRejectsAtOnce(s, group, j);
    } else if |group| > 0 && forall j :: 0 <= j < |group| ==> s'.cells[group[j]].state == Fulfilled {
      AllFulfilsAtOnce(s, group);
    }
  }

  /** Whatever cascade a settlement sets off, once it is over the `all` promise
      is settled as soon as its sources call for it: with every source's value
      in input order once all are fulfilled, or with the error of a rejected
      source once one is rejected. The settled source may be any promise, not
      only a source: a source reached through a `then` chain counts too. */
  lemma AllOutcomeAfterSettle<A, E>(s: Snapshot<A, E>, p: nat, r: Result<A, E>, t: nat, group: seq<nat>)
    requires Consistent(s) && p < |s.cells| && !r.Undefined?
    requires AllInv(s, t, group) && AllRegistered(s, t, group) && AllDue(s, t, group, {})
    requires p == t ==> Justified(s, group, r)
    ensures var s' := Settle(s, p, r);
      && AllInv(s', t, group) && AllRegistered(s', t, group) && AllDue(s', t, group, {})
      && (|group| > 0 && (forall j :: 0 <= j < |group| ==> s'.cells[group[j]].state == Fulfilled) ==>
            && AllValues(s', group)
            && s'.cells[t].state == Fulfilled
            && s'.cells[t].result == Value(List(ValuesOf(s'.cells, group))))
      && ((exists j :: 0 <= j < |group| && s'.cells[group[j]].state == Rejected) ==>
            && s'.cells[t].state == Rejected
            && exists i :: 0 <= i < |group| && s'.cells[group[i]].state == Rejected && s'.cells[t].result == s'.cells[group[i]].result)
  {
    var s' := Settle(s, p, r);
    AllKeptBySettle(s, p, r, t, group);
    AllDueSettle(s, p, r, t, group, {});
    if |group| > 0 && forall j :: 0 <= j < |group| ==> s'.cells[group[j]].state == Fulfilled {
      SettledAllFulfilled(s', t, group);
    }
    if exists j :: 0 <= j < |group| && s'.cells[group[j]].state == Rejected {
      var j :| 0 <= j < |group| && s'.cells[group[j]].state == Rejected;
      SettledAllRejected(s', s', t, group, j);
    }
  }

  /** Creating a promise keeps `t` due. */
  lemma AllDueKeptByCreate<A, E>(s: Snapshot<A, E>, t: nat, group: seq<nat>)
    requires Consistent(s) && AllInv(s, t, group) && AllDue(s, t, group, {})
    ensures AllDue(Create(s), t, group, {})
  {
  }

  /** A registration aimed at another promise keeps `t` due. */
  lemma AllDueKeptByRegister<A, E>(s: Snapshot<A, E>, p: nat, l: Listener<A>, t: nat, group: seq<nat>)
    requires Consistent(s) && p < |s.cells| && Fits(l, p, |s.cells|) && l.target != t
    requires AllInv(s, t, group) && AllRegistered(s, t, group) && AllDue(s, t, group, {})
    ensures AllDue(Register(s, p, l), t, group, {})
  {
    if s.cells[p].state != Pending {
      assert l != AllStep(t, group);
      AllDueFireOne(s, p, l, s.cells[p].result, t, group, {});
    }
  }

  /** Registering a listener aimed at another promise on each of `ps` keeps the
      `all` invariant, its registrations and `t` due. */
  lemma {:induction false} AllDueKeptByRegisterEach<A, E>(s: Snapshot<A, E>, ps: seq<nat>, l: Listener<A>, t: nat, group: seq<nat>)
    requires Consistent(s) && Aims(l, |s.cells|) && (forall j :: 0 <= j < |ps| ==> ps[j] < l.target) && l.target != t
    requires AllInv(s, t, group) && AllRegistered(s, t, group) && AllDue(s, t, group, {})
    ensures AllDue(RegisterEach(s, ps, l), t, group, {})
    decreases |ps|
  {
    if ps != [] {
      AllKeptByRegister(s, ps[0], l, t, group);
      AllDueKeptByRegister(s, ps[0], l, t, group);
      AllDueKeptByRegisterEach(Register(s, ps[0], l), ps[1..], l, t, group);
    }
  }

  /** `then`, `catch`, another `all`, a `race`, `resolve`, `reject` and
      `Promise(p)` keep `t` due. */
  lemma AllDueKeptByOperations<A, E>(s: Snapshot<A, E>, p: nat, f: Val<A> -> Val<A>, observed: bool, other: seq<nat>, r: Result<A, E>, t: nat, group: seq<nat>)
    requires Consistent(s) && p < |s.cells| && Exist(s, other) && (r.Value? || r.Error?)
    requires AllInv(s, t, group) && AllRegistered(s, t, group) && AllDue(s, t, group, {})
    ensures AllDue(ThenOn(s, p, f, observed), t, group, {}) && AllDue(CatchOn(s, p), t, group, {})
    ensures AllDue(AllOf(s, other), t, group, {}) && AllDue(RaceOf(s, other), t, group, {})
    ensures r.Value? ==> AllDue(Resolve(s, r.value), t, group, {})
    ensures r.Error? ==> AllDue(Reject(s, r.error), t, group, {})
    ensures s.cells[p].state != Pending ==> AllDue(CopyOf(s, p), t, group, {})
  {
    var s0 := Create(s);
    var n := |s.cells|;
    AllKeptByCreate(s, t, group);
    AllDueKeptByCreate(s, t, group);
    AllDueKeptByRegister(s0, p, ThenStep(n, f, observed), t, group);
    AllDueKeptByRegister(s0, p, ThenStep(n, Identity, true), t, group);
    AllDueKeptByRegisterEach(s0, other, AllStep(n, other), t, group);
    AllDueKeptByRegisterEach(s0, other, RaceStep(n), t, group);
    AllDueSettle(s0, n, r, t, group, {});
    if s.cells[p].state != Pending {
      assert Coherent(s.cells[p]);
      AllDueSettle(s0, n, s.cells[p].result, t, group, {});
    }
  }

  /** `all([])` has no source to hear from: no settlement of another promise, with
      all it sets off, ever changes it, so it stays pending for good. */
  lemma AllEmptyStaysPending<A, E>(s: Snapshot<A, E>, p: nat, r: Result<A, E>, t: nat)
    requires Consistent(s) && AllInv(s, t, []) && p < |s.cells| && p != t && !r.Undefined?
    ensures Settle(s, p, r).cells[t] == s.cells[t]
  {
    assert Unaimed(s, {t}) by {
      forall i, k | 0 <= i < |s.cells| && 0 <= k < |s.cells[i].listeners|
        ensures s.cells[i].listeners[k].target != t
      {
        if s.cells[i].listeners[k].target == t {
          assert false;
        }
      }
    }
    SettleFrame(s, p, r, {t});
  }
}

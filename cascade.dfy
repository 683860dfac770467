/** What a settlement does to the rest of the world: the chain of the settled
    promise runs in registration order, each listener's target is settled by it,
    a rejection spreads only as the same rejection, and promises no pending
    listener points at are left alone. */
module Cascade {
  import opened PromiseTypes
  import opened Semantics

  /** Firing a chain in two parts is firing it whole: listeners run in the
      order in which they were registered. */
  lemma {:induction false} FireSplit<A, E>(s: Snapshot<A, E>, p: nat, r: Result<A, E>, ls1: seq<Listener<A>>, ls2: seq<Listener<A>>)
    requires WellFormed(s) && p < |s.cells| && !r.Undefined?
    requires forall k :: 0 <= k < |ls1| ==> Fits(ls1[k], p, |s.cells|)
    requires forall k :: 0 <= k < |ls2| ==> Fits(ls2[k], p, |s.cells|)
    ensures Fire(s, p, r, ls1 + ls2) == Fire(Fire(s, p, r, ls1), p, r, ls2)
    decreases |ls1|
  {
    if ls1 == [] {
      assert ls1 + ls2 == ls2;
    } else {
      assert (ls1 + ls2)[0] == ls1[0];
      assert (ls1 + ls2)[1..] == ls1[1..] + ls2;
      FireSplit(FireOne(s, p, ls1[0], r), p, r, ls1[1..], ls2);
    }
  }

  /** Between `s` and `s'` some pending promises became rejected with `e`, and
      every observer call added to the log was given `e`. */
  ghost predicate RejectedOnlyWith<A, E>(s: Snapshot<A, E>, s': Snapshot<A, E>, e: E)
  {
    && |s'.cells| == |s.cells|
    && (forall i :: 0 <= i < |s.cells| ==>
          || s'.cells[i] == s.cells[i]
          || (s.cells[i].state == Pending && s'.cells[i] == Cell(Rejected, Error(e), s.cells[i].listeners)))
    && s.log <= s'.log
    && (forall k :: |s.log| <= k < |s'.log| ==> s'.log[k].error == e)
  }

  lemma RejectedOnlyWithTrans<A, E>(s0: Snapshot<A, E>, s1: Snapshot<A, E>, s2: Snapshot<A, E>, e: E)
    requires RejectedOnlyWith(s0, s1, e) && RejectedOnlyWith(s1, s2, e)
    ensures RejectedOnlyWith(s0, s2, e)
  {
    forall i | 0 <= i < |s0.cells|
      ensures || s2.cells[i] == s0.cells[i]
              || (s0.cells[i].state == Pending && s2.cells[i] == Cell(Rejected, Error(e), s0.cells[i].listeners))
    {
      if s1.cells[i] != s0.cells[i] {
        assert s2.cells[i] == s1.cells[i];
      }
    }
    forall k | |s0.log| <= k < |s2.log| ensures s2.log[k].error == e {
      if k < |s1.log| {
        assert s2.log[k] == s1.log[k];
      }
    }
  }

  /** A rejection with `e` settles other promises only as rejected with `e`
      and gives every observer it reaches `e`: an error travels unchanged. */
  lemma {:induction false} SettleRejectsWith<A, E>(s: Snapshot<A, E>, p: nat, e: E)
    requires WellFormed(s) && p < |s.cells|
    ensures RejectedOnlyWith(s, Settle(s, p, Error(e)), e)
    decreases |s.cells| - p, 2, 0
  {
    if s.cells[p].state == Pending {
      var m := Mark(s, p, Error(e));
      assert RejectedOnlyWith(s, m, e) by {
        forall i | 0 <= i < |s.cells|
          ensures || m.cells[i] == s.cells[i]
                  || (s.cells[i].state == Pending && m.cells[i] == Cell(Rejected, Error(e), s.cells[i].listeners))
        {
        }
      }
      FireRejectsWith(m, p, e, s.cells[p].listeners);
      RejectedOnlyWithTrans(s, m, Settle(s, p, Error(e)), e);
    }
  }

  lemma {:induction false} FireRejectsWith<A, E>(s: Snapshot<A, E>, p: nat, e: E, ls: seq<Listener<A>>)
    requires WellFormed(s) && p < |s.cells|
    requires forall k :: 0 <= k < |ls| ==> Fits(ls[k], p, |s.cells|)
    ensures RejectedOnlyWith(s, Fire(s, p, Error(e), ls), e)
    decreases |s.cells| - p, 1, |ls|
  {
    if ls != [] {
      var s1 := FireOne(s, p, ls[0], Error(e));
      FireOneRejectsWith(s, p, ls[0], e);
      FireRejectsWith(s1, p, e, ls[1..]);
      RejectedOnlyWithTrans(s, s1, Fire(s, p, Error(e), ls), e);
    }
  }

  lemma {:induction false} FireOneRejectsWith<A, E>(s: Snapshot<A, E>, p: nat, l: Listener<A>, e: E)
    requires WellFormed(s) && p < |s.cells| && Fits(l, p, |s.cells|)
    ensures RejectedOnlyWith(s, FireOne(s, p, l, Error(e)), e)
    decreases |s.cells| - p, 0, 0
  {
    SettleRejectsWith(s, l.target, e);
  }

  /** No pending promise outside `S` has a listener aimed into `S`. */
  ghost predicate Unaimed<A, E>(s: Snapshot<A, E>, S: set<nat>)
  {
    forall i, k :: 0 <= i < |s.cells| && i !in S && s.cells[i].state == Pending && 0 <= k < |s.cells[i].listeners| ==>
      s.cells[i].listeners[k].target !in S
  }

  /** Settling a promise outside `S` leaves every promise of `S` alone when no
      pending listener from outside aims into `S`. */
  lemma {:induction false} SettleFrame<A, E>(s: Snapshot<A, E>, p: nat, r: Result<A, E>, S: set<nat>)
    requires WellFormed(s) && p < |s.cells| && !r.Undefined?
    requires p !in S && Unaimed(s, S)
    ensures forall q :: q in S && q < |s.cells| ==> Settle(s, p, r).cells[q] == s.cells[q]
    decreases |s.cells| - p, 2, 0
  {
    if s.cells[p].state == Pending {
      var m := Mark(s, p, r);
      var ls := s.cells[p].listeners;
      assert forall k :: 0 <= k < |ls| ==> ls[k].target !in S;
      FireFrame(m, p, r, ls, S);
    }
  }

  lemma {:induction false} FireFrame<A, E>(s: Snapshot<A, E>, p: nat, r: Result<A, E>, ls: seq<Listener<A>>, S: set<nat>)
    requires WellFormed(s) && p < |s.cells| && !r.Undefined?
    requires forall k :: 0 <= k < |ls| ==> Fits(ls[k], p, |s.cells|) && ls[k].target !in S
    requires Unaimed(s, S)
    ensures forall q :: q in S && q < |s.cells| ==> Fire(s, p, r, ls).cells[q] == s.cells[q]
    decreases |s.cells| - p, 1, |ls|
  {
    if ls != [] {
      var s1 := FireOne(s, p, ls[0], r);
      FireOneFrame(s, p, ls[0], r, S);
      assert Unaimed(s1, S) by {
        forall i, k | 0 <= i < |s1.cells| && i !in S && s1.cells[i].state == Pending && 0 <= k < |s1.cells[i].listeners|
          ensures s1.cells[i].listeners[k].target !in S
        {
          assert s.cells[i].state == Pending;
          assert s1.cells[i].listeners == s.cells[i].listeners;
        }
      }
      FireFrame(s1, p, r, ls[1..], S);
    }
  }

  lemma {:induction false} FireOneFrame<A, E>(s: Snapshot<A, E>, p: nat, l: Listener<A>, r: Result<A, E>, S: set<nat>)
    requires WellFormed(s) && p < |s.cells| && !r.Undefined? && Fits(l, p, |s.cells|)
    requires l.target !in S && Unaimed(s, S)
    ensures forall q :: q in S && q < |s.cells| ==> FireOne(s, p, l, r).cells[q] == s.cells[q]
    decreases |s.cells| - p, 0, 0
  {
    match l
    case ThenStep(t, f, _) =>
      if r.Value? {
        SettleFrame(s, t, Value(f(r.value)), S);
      } else {
        SettleFrame(s, t, r, S);
      }
    case AllStep(t, group) =>
      if r.Error? {
        SettleFrame(s, t, r, S);
      } else if CountFulfilled(s.cells, group) == |group| {
        SettleFrame(s, t, Value(List(FlatValues(s.cells, group))), S);
      }
    case RaceStep(t) =>
      SettleFrame(s, t, r, S);
  }

  /** Running listener `l` settles its target, except an `all` listener given a
      value, which settles it only when every source is fulfilled. */
  lemma FireOneSettlesTarget<A, E>(s: Snapshot<A, E>, p: nat, l: Listener<A>, r: Result<A, E>)
    requires WellFormed(s) && p < |s.cells| && !r.Undefined? && Fits(l, p, |s.cells|)
    requires !(l.AllStep? && r.Value?)
    ensures FireOne(s, p, l, r).cells[l.target].state != Pending
  {
  }

  /** Chain `ls` of promise `p` split around its `k`-th registration. */
  lemma ChainAt<A, E>(s: Snapshot<A, E>, p: nat, r: Result<A, E>, ls: seq<Listener<A>>, k: nat)
    requires WellFormed(s) && p < |s.cells| && !r.Undefined?
    requires forall j :: 0 <= j < |ls| ==> Fits(ls[j], p, |s.cells|)
    requires k < |ls|
    ensures var s1 := Fire(s, p, r, ls[..k]);
      Fire(s, p, r, ls) == Fire(FireOne(s1, p, ls[k], r), p, r, ls[k + 1..])
  {
    assert ls == ls[..k] + ls[k..];
    FireSplit(s, p, r, ls[..k], ls[k..]);
    assert ls[k..][0] == ls[k] && ls[k..][1..] == ls[k + 1..];
  }

  /** Every registration on a pending promise is delivered when it settles:
      the registration's target is settled afterwards. */
  lemma Delivered<A, E>(s: Snapshot<A, E>, p: nat, r: Result<A, E>, k: nat)
    requires WellFormed(s) && p < |s.cells| && !r.Undefined? && s.cells[p].state == Pending
    requires k < |s.cells[p].listeners|
    requires !(s.cells[p].listeners[k].AllStep? && r.Value?)
    ensures Settle(s, p, r).cells[s.cells[p].listeners[k].target].state != Pending
  {
    var ls := s.cells[p].listeners;
    var m := Mark(s, p, r);
    ChainAt(m, p, r, ls, k);
    var s1 := Fire(m, p, r, ls[..k]);
    FireOneSettlesTarget(s1, p, ls[k], r);
  }

  /** A rejection with `e` reaches every registration's target as a rejection
      with `e`: derived promises of `then` and `catch` and the promises of `all`
      and `race` alike. */
  lemma DeliveredReject<A, E>(s: Snapshot<A, E>, p: nat, e: E, k: nat)
    requires WellFormed(s) && p < |s.cells| && s.cells[p].state == Pending
    requires k < |s.cells[p].listeners|
    requires s.cells[s.cells[p].listeners[k].target].state == Pending
    ensures var t := s.cells[p].listeners[k].target;
      Settle(s, p, Error(e)).cells[t] == Cell(Rejected, Error(e), s.cells[t].listeners)
  {
    Delivered(s, p, Error(e), k);
    SettleRejectsWith(s, p, e);
  }

  /** A fulfilment with `v` gives the derived promise of a `then` registered at
      position `k` the transformed value `f(v)`, provided nothing else pending
      aims at that derived promise. */
  lemma DeliveredThen<A, E>(s: Snapshot<A, E>, p: nat, v: Val<A>, k: nat)
    requires WellFormed(s) && p < |s.cells| && s.cells[p].state == Pending
    requires k < |s.cells[p].listeners| && s.cells[p].listeners[k].ThenStep?
    requires var q := s.cells[p].listeners[k].target;
      && s.cells[q].state == Pending
      && forall i, j :: 0 <= i < |s.cells| && s.cells[i].state == Pending && 0 <= j < |s.cells[i].listeners| && (i != p || j != k) ==>
           s.cells[i].listeners[j].target != q
    ensures var l := s.cells[p].listeners[k];
      Settle(s, p, Value(v)).cells[l.target] == Cell(Fulfilled, Value(l.transform(v)), s.cells[l.target].listeners)
  {
    var ls := s.cells[p].listeners;
    var l := ls[k];
    var q := l.target;
    var m := Mark(s, p, Value(v));
    ChainAt(m, p, Value(v), ls, k);
    assert Unaimed(m, {q}) by {
      forall i, j | 0 <= i < |m.cells| && i !in {q} && m.cells[i].state == Pending && 0 <= j < |m.cells[i].listeners|
        ensures m.cells[i].listeners[j].target !in {q}
      {
        assert i != p && s.cells[i] == m.cells[i];
      }
    }
    var pre := ls[..k];
    assert forall j :: 0 <= j < |pre| ==> pre[j] == s.cells[p].listeners[j];
    FireFrame(m, p, Value(v), pre, {q});
  }

  /** From `s` to `s'` only copies of listener `l` were added: one to each pending
      promise per occurrence in `ps`; no state, result or log entry changed,
      except the state and result of the target of `l`, which stays without
      registrations. */
  ghost predicate OnlyRegistered<A, E>(s: Snapshot<A, E>, s': Snapshot<A, E>, l: Listener<A>, ps: seq<nat>)
  {
    && |s'.cells| == |s.cells| && l.target < |s.cells|
    && s'.log == s.log
    && s'.cells[l.target].listeners == []
    && (forall i :: 0 <= i < |s.cells| && i != l.target ==>
          && s'.cells[i].state == s.cells[i].state
          && s'.cells[i].result == s.cells[i].result
          && s.cells[i].listeners <= s'.cells[i].listeners
          && |s'.cells[i].listeners| == |s.cells[i].listeners| + (if s.cells[i].state == Pending then multiset(ps)[i] else 0)
          && (forall k :: |s.cells[i].listeners| <= k < |s'.cells[i].listeners| ==> s'.cells[i].listeners[k] == l))
  }

  lemma OnlyRegisteredTrans<A, E>(s0: Snapshot<A, E>, s1: Snapshot<A, E>, s2: Snapshot<A, E>, l: Listener<A>, g: nat, ps: seq<nat>)
    requires OnlyRegistered(s0, s1, l, [g]) && OnlyRegistered(s1, s2, l, ps)
    ensures OnlyRegistered(s0, s2, l, [g] + ps)
  {
    assert multiset([g] + ps) == multiset{g} + multiset(ps);
    forall i | 0 <= i < |s0.cells| && i != l.target
      ensures (forall k :: |s0.cells[i].listeners| <= k < |s2.cells[i].listeners| ==> s2.cells[i].listeners[k] == l)
    {
      forall k | |s0.cells[i].listeners| <= k < |s2.cells[i].listeners| ensures s2.cells[i].listeners[k] == l {
        if k < |s1.cells[i].listeners| {
          assert s2.cells[i].listeners[k] == s1.cells[i].listeners[k];
        }
      }
    }
  }

  /** One registration of an `all` or `race` listener whose target has no
      registrations of its own. */
  lemma RegisterOnlyRegisters<A, E>(s: Snapshot<A, E>, g: nat, l: Listener<A>)
    requires Consistent(s) && g < |s.cells| && Fits(l, g, |s.cells|)
    requires !l.ThenStep? && s.cells[l.target].listeners == []
    ensures OnlyRegistered(s, Register(s, g, l), l, [g])
    ensures s.cells[g].state == Pending ==> Register(s, g, l).cells[l.target] == s.cells[l.target]
  {
    var s1 := Register(s, g, l);
    var t := l.target;
    if s.cells[g].state != Pending {
      assert s1 == s || s1 == s.(cells := s.cells[t := Cell(s1.cells[t].state, s1.cells[t].result, [])]);
    }
  }

  /** Registering an `all` or `race` listener `l` on the sources `ps`, while its
      target has no registrations of its own, changes no other promise's state or
      result and adds to each pending source's chain one copy of `l` per
      occurrence in `ps`. */
  lemma {:induction false} RegisterEachLeavesRest<A, E>(s: Snapshot<A, E>, ps: seq<nat>, l: Listener<A>)
    requires Consistent(s) && Aims(l, |s.cells|) && (forall j :: 0 <= j < |ps| ==> ps[j] < l.target)
    requires !l.ThenStep? && s.cells[l.target].listeners == []
    ensures OnlyRegistered(s, RegisterEach(s, ps, l), l, ps)
    decreases |ps|
  {
    if ps == [] {
      assert RegisterEach(s, ps, l) == s;
    } else {
      var s1 := Register(s, ps[0], l);
      var s2 := RegisterEach(s1, ps[1..], l);
      assert RegisterEach(s, ps, l) == s2;
      RegisterOnlyRegisters(s, ps[0], l);
      RegisterEachLeavesRest(s1, ps[1..], l);
      assert ps == [ps[0]] + ps[1..];
      OnlyRegisteredTrans(s, s1, s2, l, ps[0], ps[1..]);
    }
  }

  /** With every source still pending, registering an `all` or `race` listener
      leaves its target alone. */
  lemma {:induction false} RegisterEachKeepsTarget<A, E>(s: Snapshot<A, E>, ps: seq<nat>, l: Listener<A>)
    requires Consistent(s) && Aims(l, |s.cells|) && (forall j :: 0 <= j < |ps| ==> ps[j] < l.target)
    requires forall j :: 0 <= j < |ps| ==> s.cells[ps[j]].state == Pending
    ensures RegisterEach(s, ps, l).cells[l.target] == s.cells[l.target]
    decreases |ps|
  {
    if ps != [] {
      var s1 := Register(s, ps[0], l);
      assert s1 == s.(cells := s.cells[ps[0] := s.cells[ps[0]].(listeners := s.cells[ps[0]].listeners + [l])]);
      assert forall j :: 0 <= j < |ps[1..]| ==> s1.cells[ps[1..][j]].state == Pending by {
        forall j | 0 <= j < |ps[1..]| ensures s1.cells[ps[1..][j]].state == Pending {
          assert ps[1..][j] == ps[j + 1];
        }
      }
      RegisterEachKeepsTarget(s1, ps[1..], l);
    }
  }

  /** No registration of `s` is dropped in `s'`: every chain only grows at its end. */
  ghost predicate ChainsGrow<A, E>(s: Snapshot<A, E>, s': Snapshot<A, E>)
    requires |s.cells| <= |s'.cells|
  {
    forall i :: 0 <= i < |s.cells| ==> s.cells[i].listeners <= s'.cells[i].listeners
  }

  /** A settlement drops no registration. */
  lemma SettleChainsGrow<A, E>(s: Snapshot<A, E>, p: nat, r: Result<A, E>)
    requires WellFormed(s) && p < |s.cells| && !r.Undefined?
    ensures ChainsGrow(s, Settle(s, p, r))
  {
    var s' := Settle(s, p, r);
    forall i | 0 <= i < |s.cells| ensures s.cells[i].listeners <= s'.cells[i].listeners {
      assert s'.cells[i].listeners == s.cells[i].listeners;
    }
  }

  /** A registration drops no registration: it appends to one chain, or runs at once. */
  lemma RegisterChainsGrow<A, E>(s: Snapshot<A, E>, p: nat, l: Listener<A>)
    requires Consistent(s) && p < |s.cells| && Fits(l, p, |s.cells|)
    ensures ChainsGrow(s, Register(s, p, l))
  {
    var s' := Register(s, p, l);
    if s.cells[p].state == Pending {
      forall i | 0 <= i < |s.cells| ensures s.cells[i].listeners <= s'.cells[i].listeners {
        if i == p {
          assert s'.cells[p].listeners == s.cells[p].listeners + [l];
        }
      }
    } else {
      forall i | 0 <= i < |s.cells| ensures s.cells[i].listeners <= s'.cells[i].listeners {
        if i == p {
          assert s'.cells[p] == s.cells[p];
        }
      }
    }
  }

  /** Registering on each promise of `ps` in turn drops no registration. */
  lemma {:induction false} RegisterEachChainsGrow<A, E>(s: Snapshot<A, E>, ps: seq<nat>, l: Listener<A>)
    requires Consistent(s) && Aims(l, |s.cells|) && (forall j :: 0 <= j < |ps| ==> ps[j] < l.target)
    ensures ChainsGrow(s, RegisterEach(s, ps, l))
    decreases |ps|
  {
    if ps != [] {
      var s1 := Register(s, ps[0], l);
      RegisterChainsGrow(s, ps[0], l);
      RegisterEachChainsGrow(s1, ps[1..], l);
      var s2 := RegisterEach(s1, ps[1..], l);
      forall i | 0 <= i < |s.cells| ensures s.cells[i].listeners <= s2.cells[i].listeners {
        assert s.cells[i].listeners <= s1.cells[i].listeners <= s2.cells[i].listeners;
      }
    }
  }
}

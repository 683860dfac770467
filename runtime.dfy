/** The mutable side of Promise/Promise.swift. Every promise's `state`, `result`
    and listener chain live in one object, indexed by promise id, so that a
    settlement can reach the promises its listeners settle in turn. Each method
    is proved against the function of module Semantics that specifies it. */
module PromiseRuntime {
  import opened PromiseTypes
  import Sem = Semantics

  /** A non-empty chain runs its first registration, then the rest. */
  lemma FireFirst<A, E>(s: Snapshot<A, E>, p: nat, r: Result<A, E>, ls: seq<Listener<A>>)
    requires WellFormed(s) && p < |s.cells| && !r.Undefined? && ls != []
    requires forall k :: 0 <= k < |ls| ==> Fits(ls[k], p, |s.cells|)
    ensures Sem.Fire(s, p, r, ls) == Sem.Fire(Sem.FireOne(s, p, ls[0], r), p, r, ls[1..])
  {
  }

  class World<A, E> {
    /** Promise `i` is `cells[i]`; ids are handed out in creation order. */
    var cells: seq<Cell<A, E>>
    /** Every call of a `then`/`catch` observer, oldest first. */
    var log: seq<Note<E>>

    function Now(): Snapshot<A, E>
      reads this
    {
      Snapshot(cells, log)
    }

    ghost predicate Valid()
      reads this
    {
      Consistent(Now())
    }

    constructor ()
      ensures Valid() && cells == [] && log == []
    {
      cells := [];
      log := [];
    }

    /** `init(executor)`: a new pending promise. The executor runs at once and is
        not part of the model; the capabilities it is handed are `OnFulfilled(p, _)`
        and `OnRejected(p, _)`. */
    method Create() returns (p: nat)
      requires Valid()
      modifies this
      ensures Valid() && p == old(|cells|)
      ensures Now() == Sem.Create(old(Now()))
    {
      p := |cells|;
      cells := cells + [NewCell()];
    }

    /** `onFulfilled(value)`: only a pending promise takes the value. */
    method OnFulfilled(p: nat, v: Val<A>)
      requires Valid() && p < |cells|
      modifies this
      ensures Valid() && Now() == Sem.Settle(old(Now()), p, Value(v))
      decreases |cells| - p, 3
    {
      if cells[p].state == Pending {
        cells := cells[p := cells[p].(result := Value(v))];
        var was := cells[p].state;
        cells := cells[p := cells[p].(state := Fulfilled)];
        assert Now() == Sem.Mark(old(Now()), p, Value(v));
        DidSetState(p, was);
      }
    }

    /** `onRejected(error)`: only a pending promise takes the error. */
    method OnRejected(p: nat, e: E)
      requires Valid() && p < |cells|
      modifies this
      ensures Valid() && Now() == Sem.Settle(old(Now()), p, Error(e))
      decreases |cells| - p, 3
    {
      if cells[p].state == Pending {
        cells := cells[p := cells[p].(result := Error(e))];
        var was := cells[p].state;
        cells := cells[p := cells[p].(state := Rejected)];
        assert Now() == Sem.Mark(old(Now()), p, Error(e));
        DidSetState(p, was);
      }
    }

    /** The `didSet` observer of `state`: on the way out of Pending it calls the
        chain that matches the stored (state, result). */
    method DidSetState(p: nat, oldState: State)
      requires Valid() && p < |cells|
      modifies this
      ensures Valid()
      ensures oldState == Pending && old(cells[p].state) != Pending ==>
        Now() == Sem.Fire(old(Now()), p, old(cells[p].result), old(cells[p].listeners))
      ensures oldState != Pending || old(cells[p].state) == Pending ==> Now() == old(Now())
      decreases |cells| - p, 2
    {
      if oldState == Pending {
        var c := cells[p];
        if c.state == Fulfilled && c.result.Value? {
          FireChain(p, c.result);
        } else if c.state == Rejected && c.result.Error? {
          FireChain(p, c.result);
        }
      }
    }

    /** `resolve?(value)` / `reject?(error)`: the chain of `p` runs its
        registrations in the order they were made. */
    method FireChain(p: nat, r: Result<A, E>)
      requires Valid() && p < |cells| && !r.Undefined?
      modifies this
      ensures Valid() && Now() == Sem.Fire(old(Now()), p, r, old(cells[p].listeners))
      decreases |cells| - p, 1
    {
      var ls := cells[p].listeners;
      ghost var goal := Sem.Fire(Now(), p, r, ls);
      var i := 0;
      while i < |ls|
        invariant 0 <= i <= |ls|
        invariant Valid() && |cells| == |old(cells)|
        invariant forall k :: 0 <= k < |ls| ==> Fits(ls[k], p, |cells|)
        invariant Sem.Fire(Now(), p, r, ls[i..]) == goal
      {
        FireFirst(Now(), p, r, ls[i..]);
        assert ls[i..][1..] == ls[i + 1..];
        Step(p, ls[i], r);
        i := i + 1;
      }
    }

    /** One registration made by `then` on promise `p`, called with outcome `r`. */
    method Step(p: nat, l: Listener<A>, r: Result<A, E>)
      requires Valid() && p < |cells| && !r.Undefined? && Fits(l, p, |cells|)
      modifies this
      ensures Valid() && Now() == Sem.FireOne(old(Now()), p, l, r)
      decreases |cells| - p, 0
    {
      match l
      case ThenStep(t, f, observed) =>
        if r.Value? {
          OnFulfilled(t, f(r.value));
        } else {
          OnRejected(t, r.error);
          if observed {
            log := log + [Observed(t, r.error)];
          }
        }
      case AllStep(t, group) =>
        if r.Error? {
          OnRejected(t, r.error);
        } else if Sem.CountFulfilled(cells, group) == |group| {
          OnFulfilled(t, List(Sem.FlatValues(cells, group)));
        }
      case RaceStep(t) =>
        if r.Value? {
          OnFulfilled(t, r.value);
        } else {
          OnRejected(t, r.error);
        }
    }

    /** What the private `then` does with its listener: extend the chain of a
        pending promise, or run the listener at once on a settled one. */
    method Register(p: nat, l: Listener<A>)
      requires Valid() && p < |cells| && Fits(l, p, |cells|)
      modifies this
      ensures Valid() && Now() == Sem.Register(old(Now()), p, l)
    {
      if cells[p].state == Pending {
        cells := cells[p := cells[p].(listeners := cells[p].listeners + [l])];
      } else {
        Step(p, l, cells[p].result);
      }
    }

    /** `then(f)` (observed = false) and `then(f, observer)` (observed = true). */
    method Then(p: nat, f: Val<A> -> Val<A>, observed: bool) returns (q: nat)
      requires Valid() && p < |cells|
      modifies this
      ensures Valid() && q == old(|cells|)
      ensures Now() == Sem.ThenOn(old(Now()), p, f, observed)
    {
      q := Create();
      Register(p, ThenStep(q, f, observed));
    }

    /** `catch(observer)`. */
    method Catch(p: nat) returns (q: nat)
      requires Valid() && p < |cells|
      modifies this
      ensures Valid() && q == old(|cells|)
      ensures Now() == Sem.CatchOn(old(Now()), p)
    {
      q := Then(p, Sem.Identity, true);
    }

    /** `Promise.all(group)`. */
    method All(group: seq<nat>) returns (t: nat)
      requires Valid() && Exist(Now(), group)
      modifies this
      ensures Valid() && t == old(|cells|)
      ensures Now() == Sem.AllOf(old(Now()), group)
    {
      t := Create();
      var l := AllStep(t, group);
      var i := 0;
      while i < |group|
        invariant 0 <= i <= |group|
        invariant Valid() && |cells| == t + 1
        invariant Sem.RegisterEach(Now(), group[i..], l) == Sem.AllOf(old(Now()), group)
      {
        assert group[i..] == [group[i]] + group[i + 1..];
        Register(group[i], l);
        i := i + 1;
      }
    }

    /** `Promise.race(group)`. */
    method Race(group: seq<nat>) returns (t: nat)
      requires Valid() && Exist(Now(), group)
      modifies this
      ensures Valid() && t == old(|cells|)
      ensures Now() == Sem.RaceOf(old(Now()), group)
    {
      t := Create();
      var l := RaceStep(t);
      var i := 0;
      while i < |group|
        invariant 0 <= i <= |group|
        invariant Valid() && |cells| == t + 1
        invariant Sem.RegisterEach(Now(), group[i..], l) == Sem.RaceOf(old(Now()), group)
      {
        assert group[i..] == [group[i]] + group[i + 1..];
        Register(group[i], l);
        i := i + 1;
      }
    }

    /** `Promise.resolve(value)`: the executor fulfils at once. */
    method Resolve(v: Val<A>) returns (p: nat)
      requires Valid()
      modifies this
      ensures Valid() && p == old(|cells|)
      ensures Now() == Sem.Resolve(old(Now()), v)
    {
      p := Create();
      OnFulfilled(p, v);
    }

    /** `Promise.reject(error)`: the executor rejects at once. */
    method Reject(e: E) returns (p: nat)
      requires Valid()
      modifies this
      ensures Valid() && p == old(|cells|)
      ensures Now() == Sem.Reject(old(Now()), e)
    {
      p := Create();
      OnRejected(p, e);
    }

    /** `init(_ promise:)` once `src` has settled: the new promise takes its outcome. */
    method CopyOf(src: nat) returns (q: nat)
      requires Valid() && src < |cells| && cells[src].state != Pending
      modifies this
      ensures Valid() && q == old(|cells|)
      ensures Now() == Sem.CopyOf(old(Now()), src)
    {
      var c := cells[src];
      q := Create();
      if c.state == Fulfilled && c.result.Value? {
        OnFulfilled(q, c.result.value);
      } else if c.state == Rejected && c.result.Error? {
        OnRejected(q, c.result.error);
      }
    }
  }
}

/** The settlement state machine of Promise/Promise.swift as functions on a
    world of promises: settling a promise, firing its listener chain, registering
    a listener, and the constructors and combinators built from them. The
    executor of every promise runs at once, so the whole machine is sequential. */
module Semantics {
  import opened PromiseTypes

  /** Stores outcome `r` in promise `p`: `result`, then `state`. */
  function Mark<A, E>(s: Snapshot<A, E>, p: nat, r: Result<A, E>): Snapshot<A, E>
    requires p < |s.cells|
  {
    s.(cells := s.cells[p := Cell(StateOf(r), r, s.cells[p].listeners)])
  }

  /** `onFulfilled` (r = Value) and `onRejected` (r = Error): a no-op unless `p`
      is pending; otherwise the outcome is stored and the `didSet` observer on
      `state` fires the whole chain of `p` with it. */
  function Settle<A, E>(s: Snapshot<A, E>, p: nat, r: Result<A, E>): (s': Snapshot<A, E>)
    requires WellFormed(s) && p < |s.cells| && !r.Undefined?
    ensures SameShape(s, s') && WellFormed(s') && Grows(s, s')
    ensures s.cells[p].state != Pending ==> s' == s
    ensures s.cells[p].state == Pending ==> s'.cells[p] == Cell(StateOf(r), r, s.cells[p].listeners)
    ensures s.cells[p].state == Pending && s.cells[p].listeners == [] ==>
      s' == s.(cells := s.cells[p := Cell(StateOf(r), r, [])])
    ensures AllCoherent(s) ==> AllCoherent(s')
    decreases |s.cells| - p, 2, 0
  {
    if s.cells[p].state != Pending then s
    else Fire(Mark(s, p, r), p, r, s.cells[p].listeners)
  }

  /** Runs the listeners `ls` of promise `p`, in order, with outcome `r`. */
  function Fire<A, E>(s: Snapshot<A, E>, p: nat, r: Result<A, E>, ls: seq<Listener<A>>): (s': Snapshot<A, E>)
    requires WellFormed(s) && p < |s.cells| && !r.Undefined?
    requires forall k :: 0 <= k < |ls| ==> Fits(ls[k], p, |s.cells|)
    ensures SameShape(s, s') && WellFormed(s') && Grows(s, s')
    ensures AllCoherent(s) ==> AllCoherent(s')
    decreases |s.cells| - p, 1, |ls|
  {
    if ls == [] then s
    else Fire(FireOne(s, p, ls[0], r), p, r, ls[1..])
  }

  /** Runs one listener of promise `p` with outcome `r`. */
  function FireOne<A, E>(s: Snapshot<A, E>, p: nat, l: Listener<A>, r: Result<A, E>): (s': Snapshot<A, E>)
    requires WellFormed(s) && p < |s.cells| && !r.Undefined? && Fits(l, p, |s.cells|)
    ensures SameShape(s, s') && WellFormed(s') && Grows(s, s')
    ensures AllCoherent(s) ==> AllCoherent(s')
    decreases |s.cells| - p, 0, 0
  {
    match l
    case ThenStep(t, f, observed) =>
      if r.Value? then Settle(s, t, Value(f(r.value)))
      else
        var s1 := Settle(s, t, r);
        if observed then s1.(log := s1.log + [Observed(t, r.error)]) else s1
    case AllStep(t, group) =>
      if r.Error? then Settle(s, t, r)
      else if CountFulfilled(s.cells, group) == |group| then
        Settle(s, t, Value(List(FlatValues(s.cells, group))))
      else s
    case RaceStep(t) =>
      Settle(s, t, r)
  }

  /** `promises.filter { $0.state == .Fulfilled }.count`. */
  function CountFulfilled<A, E>(cells: seq<Cell<A, E>>, group: seq<nat>): (n: nat)
    requires forall j :: 0 <= j < |group| ==> group[j] < |cells|
    ensures n <= |group|
    ensures n == |group| <==> forall j :: 0 <= j < |group| ==> cells[group[j]].state == Fulfilled
  {
    if group == [] then 0
    else (if cells[group[0]].state == Fulfilled then 1 else 0) + CountFulfilled(cells, group[1..])
  }

  /** `promises.flatMap { if case .Value(let v) = $0.result { v } else { nil } }`. */
  function FlatValues<A, E>(cells: seq<Cell<A, E>>, group: seq<nat>): (vs: seq<Val<A>>)
    requires forall j :: 0 <= j < |group| ==> group[j] < |cells|
    ensures |vs| <= |group|
  {
    if group == [] then []
    else
      (match cells[group[0]].result
       case Value(v) => [v]
       case _ => [])
      + FlatValues(cells, group[1..])
  }

  /** The values of a group of fulfilled promises, in group order. */
  ghost function ValuesOf<A, E>(cells: seq<Cell<A, E>>, group: seq<nat>): seq<Val<A>>
    requires forall j :: 0 <= j < |group| ==> group[j] < |cells| && cells[group[j]].result.Value?
  {
    seq(|group|, j requires 0 <= j < |group| => cells[group[j]].result.value)
  }

  /** A fresh pending promise, with id `|s.cells|`: `init(executor)` before the
      executor has called either capability. */
  function Create<A, E>(s: Snapshot<A, E>): (s': Snapshot<A, E>)
    ensures Consistent(s) ==> Consistent(s')
    ensures |s'.cells| == |s.cells| + 1 && s'.cells[..|s.cells|] == s.cells && s'.log == s.log
    ensures s'.cells[|s.cells|].state == Pending && s'.cells[|s.cells|].listeners == []
  {
    s.(cells := s.cells + [NewCell()])
  }

  /** Registration of listener `l` on promise `p`, as the private `then` does it:
      appended to the chain while `p` is pending, run at once with the stored
      outcome once `p` is settled. */
  function Register<A, E>(s: Snapshot<A, E>, p: nat, l: Listener<A>): (s': Snapshot<A, E>)
    requires Consistent(s) && p < |s.cells| && Fits(l, p, |s.cells|)
    ensures Consistent(s') && |s'.cells| == |s.cells| && Grows(s, s')
    ensures forall i :: 0 <= i < |s.cells| && i != p ==> s'.cells[i].listeners == s.cells[i].listeners
    ensures s.cells[p].state == Pending ==>
      s' == s.(cells := s.cells[p := s.cells[p].(listeners := s.cells[p].listeners + [l])])
    ensures s.cells[p].state != Pending ==> s'.cells[p] == s.cells[p]
  {
    if s.cells[p].state == Pending then
      s.(cells := s.cells[p := s.cells[p].(listeners := s.cells[p].listeners + [l])])
    else
      FireOne(s, p, l, s.cells[p].result)
  }

  /** Registers `l` on each promise of `ps`, in order (the `forEach` of `all`
      and `race`). */
  function RegisterEach<A, E>(s: Snapshot<A, E>, ps: seq<nat>, l: Listener<A>): (s': Snapshot<A, E>)
    requires Consistent(s) && Aims(l, |s.cells|)
    requires forall j :: 0 <= j < |ps| ==> ps[j] < l.target
    ensures Consistent(s') && |s'.cells| == |s.cells| && Grows(s, s')
    decreases |ps|
  {
    if ps == [] then s
    else RegisterEach(Register(s, ps[0], l), ps[1..], l)
  }

  /** `then(f)` (observed = false) and `then(f, observer)` (observed = true) on
      promise `p`; the derived promise has id `|s.cells|`. */
  function ThenOn<A, E>(s: Snapshot<A, E>, p: nat, f: Val<A> -> Val<A>, observed: bool): (s': Snapshot<A, E>)
    requires Consistent(s) && p < |s.cells|
    ensures Consistent(s') && |s'.cells| == |s.cells| + 1
    ensures s.cells[p].state == Pending ==>
      && s'.cells == (s.cells + [NewCell()])[p := s.cells[p].(listeners := s.cells[p].listeners + [ThenStep(|s.cells|, f, observed)])]
      && s'.log == s.log
    ensures s.cells[p].state == Fulfilled ==>
      && s'.cells == s.cells + [Cell(Fulfilled, Value(f(s.cells[p].result.value)), [])]
      && s'.log == s.log
    ensures s.cells[p].state == Rejected ==>
      && s'.cells == s.cells + [Cell(Rejected, s.cells[p].result, [])]
      && s'.log == s.log + (if observed then [Observed(|s.cells|, s.cells[p].result.error)] else [])
  {
    Register(Create(s), p, ThenStep(|s.cells|, f, observed))
  }

  function Identity<A>(v: Val<A>): Val<A>
  {
    v
  }

  /** `catch(observer)`: `then(identity, observer)`. */
  function CatchOn<A, E>(s: Snapshot<A, E>, p: nat): (s': Snapshot<A, E>)
    requires Consistent(s) && p < |s.cells|
    ensures Consistent(s') && |s'.cells| == |s.cells| + 1
    ensures s.cells[p].state == Pending ==>
      && s'.cells == (s.cells + [NewCell()])[p := s.cells[p].(listeners := s.cells[p].listeners + [ThenStep(|s.cells|, Identity, true)])]
      && s'.log == s.log
    ensures s.cells[p].state == Fulfilled ==>
      && s'.cells == s.cells + [s.cells[p].(listeners := [])]
      && s'.log == s.log
    ensures s.cells[p].state == Rejected ==>
      && s'.cells == s.cells + [s.cells[p].(listeners := [])]
      && s'.log == s.log + [Observed(|s.cells|, s.cells[p].result.error)]
  {
    ThenOn(s, p, Identity, true)
  }

  /** `Promise.all(group)`; the returned promise has id `|s.cells|`. */
  function AllOf<A, E>(s: Snapshot<A, E>, group: seq<nat>): (s': Snapshot<A, E>)
    requires Consistent(s) && Exist(s, group)
    ensures Consistent(s') && |s'.cells| == |s.cells| + 1 && Grows(s, s')
    ensures group == [] ==> s'.cells[|s.cells|].state == Pending
  {
    RegisterEach(Create(s), group, AllStep(|s.cells|, group))
  }

  /** `Promise.race(group)`; the returned promise has id `|s.cells|`. */
  function RaceOf<A, E>(s: Snapshot<A, E>, group: seq<nat>): (s': Snapshot<A, E>)
    requires Consistent(s) && Exist(s, group)
    ensures Consistent(s') && |s'.cells| == |s.cells| + 1 && Grows(s, s')
    ensures group == [] ==> s'.cells[|s.cells|].state == Pending
  {
    RegisterEach(Create(s), group, RaceStep(|s.cells|))
  }

  /** `Promise.resolve(v)`: a new promise already fulfilled with `v`. */
  function Resolve<A, E>(s: Snapshot<A, E>, v: Val<A>): (s': Snapshot<A, E>)
    requires Consistent(s)
    ensures Consistent(s') && s'.log == s.log
    ensures s'.cells == s.cells + [Cell(Fulfilled, Value(v), [])]
  {
    Settle(Create(s), |s.cells|, Value(v))
  }

  /** `Promise.reject(e)`: a new promise already rejected with `e`. */
  function Reject<A, E>(s: Snapshot<A, E>, e: E): (s': Snapshot<A, E>)
    requires Consistent(s)
    ensures Consistent(s') && s'.log == s.log
    ensures s'.cells == s.cells + [Cell(Rejected, Error(e), [])]
  {
    Settle(Create(s), |s.cells|, Error(e))
  }

  /** `init(_ promise:)` once `p` has settled: a new promise with the outcome of `p`. */
  function CopyOf<A, E>(s: Snapshot<A, E>, p: nat): (s': Snapshot<A, E>)
    requires Consistent(s) && p < |s.cells| && s.cells[p].state != Pending
    ensures Consistent(s') && s'.log == s.log
    ensures s'.cells == s.cells + [Cell(s.cells[p].state, s.cells[p].result, [])]
  {
    Settle(Create(s), |s.cells|, s.cells[p].result)
  }
}

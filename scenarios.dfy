/** The scenarios of PromiseTests/PromiseTests.swift, replayed on the model.
    Promise ids are handed out in creation order: a test's sources are made
    first, as the fresh promises `0 .. n - 1`, and the combinator's promise is
    `n`. The executors' sleeps become the order in which sources are settled;
    `AllCollectsAsTimersFire` follows the sleeps of testAll, and
    `AllCollectsInInputOrder` takes another order on purpose, to show values
    that arrive out of order still come out in input order. */
module Scenarios {
  import opened PromiseTypes
  import opened Semantics
  import opened Cascade
  import opened AllCombinator
  import opened RaceCombinator
  import opened Chaining
  import opened ThenChain

  datatype DummyError = Any

  type IntWorld = Snapshot<int, DummyError>

  const Empty: IntWorld := Snapshot([], [])

  /** The world holds exactly `n` promises, all just created: the sources of a
      test, made before anything else. */
  ghost predicate Fresh<A, E>(s: Snapshot<A, E>, n: nat)
  {
    |s.cells| == n && forall i :: 0 <= i < n ==> s.cells[i] == NewCell()
  }

  function Increment(v: Val<int>): Val<int>
  {
    match v
    case Atom(x) => Atom(x + 1)
    case List(_) => v
  }

  function DoubleUp(v: Val<int>): Val<int>
  {
    match v
    case Atom(x) => Atom(x * 2)
    case List(_) => v
  }

  /** `resolve(1).then { $0 * 2 }` is fulfilled with 2. */
  lemma ThenDoubles()
    ensures ThenOn(Resolve(Empty, Atom(1)), 0, DoubleUp, false).cells[1] == Cell(Fulfilled, Value(Atom(2)), [])
  {
  }

  /** `resolve(10).then(increment).then(doubleUp).catch { .. }.then { .. }`: the
      value 22 passes through `catch` untouched, the observer of `catch` is never
      called, and the last promise is fulfilled. */
  lemma Composition()
    ensures var s1 := Resolve(Empty, Atom(10));
      var s2 := ThenOn(s1, 0, Increment, false);
      var s3 := ThenOn(s2, 1, DoubleUp, false);
      var s4 := CatchOn(s3, 2);
      var s5 := ThenOn(s4, 3, Identity, false);
      && s4.cells[3] == Cell(Fulfilled, Value(Atom(22)), [])
      && s5.cells[4].state == Fulfilled
      && s5.log == []
  {
  }

  /** `reject(.Any).catch { .. }`: the promise `catch` returns is rejected with the
      same error, and the observer is called once, with it. */
  lemma CatchSeesRejection()
    ensures var s := CatchOn(Reject(Empty, Any), 0);
      s.cells[1] == Cell(Rejected, Error(Any), []) && s.log == [Observed(1, Any)]
  {
  }

  /** `Promise(p)` on a fulfilled `p` is fulfilled with the same value. */
  lemma CopyOfFulfilled()
    ensures CopyOf(Resolve(Empty, Atom(1)), 0).cells[1] == Cell(Fulfilled, Value(Atom(1)), [])
  {
  }

  /** Each of the ids `0 .. |group| - 1`, listed once in order, occurs once. */
  lemma {:induction false} CountsOfRange(group: seq<nat>)
    requires forall j :: 0 <= j < |group| ==> group[j] == j
    ensures forall i :: 0 <= i < |group| ==> multiset(group)[i] == 1
    ensures forall i :: |group| <= i ==> multiset(group)[i] == 0
    decreases |group|
  {
    if group != [] {
      var n := |group| - 1;
      assert group == group[..n] + [n];
      CountsOfRange(group[..n]);
    }
  }

  /** `all` over fresh promises `0 .. n - 1` in that order: each source carries one
      `all` listener, the `all` promise `n` is pending with none, and the
      invariant of `all` holds. */
  lemma AllOverFresh<A, E>(s: Snapshot<A, E>, group: seq<nat>)
    requires forall i :: 0 <= i < |s.cells| ==> s.cells[i] == NewCell()
    requires |group| == |s.cells| && forall j :: 0 <= j < |group| ==> group[j] == j
    ensures Consistent(s) && Exist(s, group)
    ensures var s' := AllOf(s, group);
      && |s'.cells| == |s.cells| + 1
      && (forall i :: 0 <= i < |s.cells| ==> s'.cells[i] == Cell(Pending, Undefined, [AllStep(|s.cells|, group)]))
      && s'.cells[|s.cells|] == NewCell()
      && AllInv(s', |s.cells|, group)
  {
    var n := |s.cells|;
    var l := AllStep(n, group);
    var s0 := Create(s);
    var s' := AllOf(s, group);
    CountsOfRange(group);
    RegisterEachLeavesRest(s0, group, l);
    RegisterEachKeepsTarget(s0, group, l);
    AllOfEstablishes(s, group);
    forall i | 0 <= i < n ensures s'.cells[i] == Cell(Pending, Undefined, [l]) {
      assert multiset(group)[i] == 1;
      assert s'.cells[i].listeners == [l];
    }
  }

  /** `all([timer(1), timer(2), timer(3)])`, with the sources fulfilled in the
      order third, first, second (values `c`, `a`, `b`): the values still come
      out in input order. */
  lemma AllCollectsInInputOrder(s: IntWorld, a: Val<int>, b: Val<int>, c: Val<int>)
    requires Fresh(s, 3)
    ensures Consistent(s)
    ensures var s4 := AllOf(s, [0, 1, 2]);
      var s7 := Settle(Settle(Settle(s4, 2, Value(c)), 0, Value(a)), 1, Value(b));
      s7.cells[3] == Cell(Fulfilled, Value(List([a, b, c])), [])
  {
    AllFirstTwoOfThree(s, a, c);
    AllLastOfThree(Settle(Settle(AllOf(s, [0, 1, 2]), 2, Value(c)), 0, Value(a)), a, b, c);
  }

  /** The first two settlements of `AllCollectsInInputOrder` only store their values. */
  lemma AllFirstTwoOfThree(s: IntWorld, a: Val<int>, c: Val<int>)
    requires Fresh(s, 3)
    ensures Consistent(s)
    ensures var s4 := AllOf(s, [0, 1, 2]);
      var s6 := Settle(Settle(s4, 2, Value(c)), 0, Value(a));
      var l := AllStep(3, [0, 1, 2]);
      && s6.cells == [Cell(Fulfilled, Value(a), [l]), Cell(Pending, Undefined, [l]), Cell(Fulfilled, Value(c), [l]), NewCell()]
      && Consistent(s6) && AllInv(s6, 3, [0, 1, 2])
  {
    var group := [0, 1, 2];
    AllOverFresh(s, group);
    var s4 := AllOf(s, group);
    var l := AllStep(3, group);
    assert s4.cells == [Cell(Pending, Undefined, [l]), Cell(Pending, Undefined, [l]), Cell(Pending, Undefined, [l]), NewCell()];
    AllThirdFirst(s4, c);
    AllSecondOfThree(Settle(s4, 2, Value(c)), a, c);
  }

  /** The first settlement of `AllCollectsInInputOrder`, of source 2. */
  lemma AllThirdFirst(w: IntWorld, c: Val<int>)
    requires var l := AllStep(3, [0, 1, 2]);
      w.cells == [Cell(Pending, Undefined, [l]), Cell(Pending, Undefined, [l]), Cell(Pending, Undefined, [l]), NewCell()]
    requires Consistent(w) && AllInv(w, 3, [0, 1, 2])
    ensures var w' := Settle(w, 2, Value(c));
      var l := AllStep(3, [0, 1, 2]);
      && w'.cells == [Cell(Pending, Undefined, [l]), Cell(Pending, Undefined, [l]), Cell(Fulfilled, Value(c), [l]), NewCell()]
      && Consistent(w') && AllInv(w', 3, [0, 1, 2])
  {
    AllWaitsForEverySource(w, 2, c, 3, [0, 1, 2], 0);
    AllSettle(w, 2, Value(c), 3, [0, 1, 2]);
  }

  /** The second settlement of `AllCollectsInInputOrder`, while source 1 is still pending. */
  lemma AllSecondOfThree(w: IntWorld, a: Val<int>, c: Val<int>)
    requires var l := AllStep(3, [0, 1, 2]);
      w.cells == [Cell(Pending, Undefined, [l]), Cell(Pending, Undefined, [l]), Cell(Fulfilled, Value(c), [l]), NewCell()]
    requires Consistent(w) && AllInv(w, 3, [0, 1, 2])
    ensures var w' := Settle(w, 0, Value(a));
      var l := AllStep(3, [0, 1, 2]);
      && w'.cells == [Cell(Fulfilled, Value(a), [l]), Cell(Pending, Undefined, [l]), Cell(Fulfilled, Value(c), [l]), NewCell()]
      && Consistent(w') && AllInv(w', 3, [0, 1, 2])
  {
    AllWaitsForEverySource(w, 0, a, 3, [0, 1, 2], 1);
    AllSettle(w, 0, Value(a), 3, [0, 1, 2]);
  }

  /** The last source of `all([0, 1, 2])` is fulfilled. */
  lemma AllLastOfThree(w: IntWorld, a: Val<int>, b: Val<int>, c: Val<int>)
    requires var l := AllStep(3, [0, 1, 2]);
      w.cells == [Cell(Fulfilled, Value(a), [l]), Cell(Pending, Undefined, [l]), Cell(Fulfilled, Value(c), [l]), NewCell()]
    requires Consistent(w) && AllInv(w, 3, [0, 1, 2])
    ensures Settle(w, 1, Value(b)).cells[3] == Cell(Fulfilled, Value(List([a, b, c])), [])
  {
    var w' := Settle(w, 1, Value(b));
    assert w'.cells[0] == w.cells[0] && w'.cells[2] == w.cells[2];
    assert w'.cells[1].result == Value(b);
    ValuesOfThree(w'.cells, a, b, c);
    AllFulfilsOnLast(w, 1, b, 0, 3, [0, 1, 2]);
  }

  lemma ValuesOfThree<A, E>(cells: seq<Cell<A, E>>, a: Val<A>, b: Val<A>, c: Val<A>)
    requires |cells| >= 3 && cells[0].result == Value(a) && cells[1].result == Value(b) && cells[2].result == Value(c)
    ensures ValuesOf(cells, [0, 1, 2]) == [a, b, c]
  {
  }

  /** `all([timer(1), timer(2), timer(3), p2])` where `p2` rejects with `e` after
      the first timer fulfils: the `all` promise is rejected with `e`, and the
      timers that fulfil later leave it so. `p2` and `timer(1)` both sleep one
      second, so the test does not fix which settles first; the tie is broken
      here with `timer(1)` first. In the other order `p2` rejects while every
      source is pending, and `AllRejectsWhenSourceRejects` gives the same
      error `e`. */
  lemma AllRejectsWithSourceError(s: IntWorld, a: Val<int>, b: Val<int>, c: Val<int>, e: DummyError)
    requires Fresh(s, 4)
    ensures Consistent(s)
    ensures var s5 := AllOf(s, [0, 1, 2, 3]);
      var s6 := Settle(s5, 0, Value(a));
      var s7 := Settle(s6, 3, Error(e));
      var s9 := Settle(Settle(s7, 1, Value(b)), 2, Value(c));
      && s7.cells[4] == Cell(Rejected, Error(e), [])
      && s9.cells[4] == s7.cells[4]
  {
    AllOverFour(s);
    RejectionAfterFirstTimer(AllOf(s, [0, 1, 2, 3]), a, b, c, e);
  }

  /** The settlements of `AllRejectsWithSourceError`, from the moment `all` is made. */
  lemma RejectionAfterFirstTimer(w: IntWorld, a: Val<int>, b: Val<int>, c: Val<int>, e: DummyError)
    requires var l := AllStep(4, [0, 1, 2, 3]);
      w.cells == [Cell(Pending, Undefined, [l]), Cell(Pending, Undefined, [l]), Cell(Pending, Undefined, [l]), Cell(Pending, Undefined, [l]), NewCell()]
    requires Consistent(w) && AllInv(w, 4, [0, 1, 2, 3])
    ensures var w2 := Settle(Settle(w, 0, Value(a)), 3, Error(e));
      var w4 := Settle(Settle(w2, 1, Value(b)), 2, Value(c));
      && w2.cells[4] == Cell(Rejected, Error(e), [])
      && w4.cells[4] == w2.cells[4]
  {
    AllFirstOfFour(w, a);
    var w1 := Settle(w, 0, Value(a));
    DeliveredReject(w1, 3, e, 0);
    SettledStaysSettled(Settle(w1, 3, Error(e)), 4, 1, Value(b), 2, Value(c));
  }

  /** `all` over four fresh promises. */
  lemma AllOverFour(s: IntWorld)
    requires Fresh(s, 4)
    ensures Consistent(s)
    ensures var s5 := AllOf(s, [0, 1, 2, 3]);
      var l := AllStep(4, [0, 1, 2, 3]);
      && s5.cells == [Cell(Pending, Undefined, [l]), Cell(Pending, Undefined, [l]), Cell(Pending, Undefined, [l]), Cell(Pending, Undefined, [l]), NewCell()]
      && Consistent(s5) && AllInv(s5, 4, [0, 1, 2, 3])
  {
    AllOverFresh(s, [0, 1, 2, 3]);
  }

  /** Two more settlements leave a settled promise `t` as it is. */
  lemma SettledStaysSettled<A, E>(s: Snapshot<A, E>, t: nat, p1: nat, r1: Result<A, E>, p2: nat, r2: Result<A, E>)
    requires WellFormed(s) && t < |s.cells| && s.cells[t].state != Pending
    requires p1 < |s.cells| && p2 < |s.cells| && !r1.Undefined? && !r2.Undefined?
    ensures Settle(Settle(s, p1, r1), p2, r2).cells[t] == s.cells[t]
  {
  }

  /** The first timer of `AllRejectsWithSourceError` fulfils while the other
      sources are pending: only its own cell changes. */
  lemma AllFirstOfFour(w: IntWorld, a: Val<int>)
    requires var l := AllStep(4, [0, 1, 2, 3]);
      w.cells == [Cell(Pending, Undefined, [l]), Cell(Pending, Undefined, [l]), Cell(Pending, Undefined, [l]), Cell(Pending, Undefined, [l]), NewCell()]
    requires Consistent(w) && AllInv(w, 4, [0, 1, 2, 3])
    ensures var w' := Settle(w, 0, Value(a));
      && w'.cells[3] == Cell(Pending, Undefined, [AllStep(4, [0, 1, 2, 3])])
      && w'.cells[4] == NewCell()
  {
    AllWaitsForEverySource(w, 0, a, 4, [0, 1, 2, 3], 1);
  }

  /** `race` over fresh promises `0 .. n - 1` in that order: each source carries
      one `race` listener, the `race` promise `n` is pending with none, and the
      wiring of `race` holds. */
  lemma RaceOverFresh<A, E>(s: Snapshot<A, E>, group: seq<nat>)
    requires forall i :: 0 <= i < |s.cells| ==> s.cells[i] == NewCell()
    requires |group| == |s.cells| && forall j :: 0 <= j < |group| ==> group[j] == j
    ensures Consistent(s) && Exist(s, group)
    ensures var s' := RaceOf(s, group);
      && |s'.cells| == |s.cells| + 1
      && (forall i :: 0 <= i < |s.cells| ==> s'.cells[i] == Cell(Pending, Undefined, [RaceStep(|s.cells|)]))
      && s'.cells[|s.cells|] == NewCell()
      && RaceWired(s', |s.cells|, group) && Consistent(s')
  {
    var n := |s.cells|;
    var l: Listener<A> := RaceStep(n);
    var s0 := Create(s);
    var s' := RaceOf(s, group);
    CountsOfRange(group);
    RegisterEachLeavesRest(s0, group, l);
    RegisterEachKeepsTarget(s0, group, l);
    RaceOfEstablishes(s, group);
    forall i | 0 <= i < n ensures s'.cells[i] == Cell(Pending, Undefined, [l]) {
      assert multiset(group)[i] == 1;
      assert s'.cells[i].listeners == [l];
    }
  }

  /** `race([x, y])`: whichever source settles first, with a value or an error,
      decides the outcome, and the other source's later settlement is ignored.
      This covers the three races of testRace: both fulfil, the fulfilment comes
      before the rejection, and the rejection comes before the fulfilment. */
  lemma RaceFirstSettlementWins(s: IntWorld, first: nat, r1: Result<int, DummyError>, r2: Result<int, DummyError>)
    requires Fresh(s, 2) && first < 2 && !r1.Undefined? && !r2.Undefined?
    ensures Consistent(s)
    ensures var s3 := RaceOf(s, [0, 1]);
      var s4 := Settle(s3, first, r1);
      var s5 := Settle(s4, 1 - first, r2);
      && s4.cells[2] == Cell(StateOf(r1), r1, [])
      && s5.cells[2] == s4.cells[2]
  {
    RaceOverFresh(s, [0, 1]);
    var s3 := RaceOf(s, [0, 1]);
    var l: Listener<int> := RaceStep(2);
    assert s3.cells == [Cell(Pending, Undefined, [l]), Cell(Pending, Undefined, [l]), NewCell()];
    RaceFirstOfTwo(s3, first, r1);
  }

  /** The first settlement of `race([0, 1])` is adopted. */
  lemma RaceFirstOfTwo(w: IntWorld, first: nat, r: Result<int, DummyError>)
    requires var l := RaceStep(2);
      w.cells == [Cell(Pending, Undefined, [l]), Cell(Pending, Undefined, [l]), NewCell()]
    requires Consistent(w) && RaceWired(w, 2, [0, 1]) && first < 2 && !r.Undefined?
    ensures Settle(w, first, r).cells[2] == Cell(StateOf(r), r, [])
  {
    RaceAdoptsFirst(w, first, r, 0, 2, [0, 1]);
  }

  /** `all([timer(1), timer(2), timer(3)])` with the timers fulfilling in the
      order of their sleeps, first `a`, then `b`, then `c`: the `all` promise is
      fulfilled with `[a, b, c]` once the last one arrives. */
  lemma AllCollectsAsTimersFire(s: IntWorld, a: Val<int>, b: Val<int>, c: Val<int>)
    requires Fresh(s, 3)
    ensures Consistent(s)
    ensures var s4 := AllOf(s, [0, 1, 2]);
      var s6 := Settle(Settle(s4, 0, Value(a)), 1, Value(b));
      && s6.cells[3] == NewCell()
      && Settle(s6, 2, Value(c)).cells[3] == Cell(Fulfilled, Value(List([a, b, c])), [])
  {
    var group := [0, 1, 2];
    AllOverFresh(s, group);
    var s4 := AllOf(s, group);
    var l := AllStep(3, group);
    assert s4.cells == [Cell(Pending, Undefined, [l]), Cell(Pending, Undefined, [l]), Cell(Pending, Undefined, [l]), NewCell()];
    AllFirstOfThree(s4, a);
    var s5 := Settle(s4, 0, Value(a));
    AllNextOfThree(s5, a, b);
    AllThirdLast(Settle(s5, 1, Value(b)), a, b, c);
  }

  /** The first timer of `AllCollectsAsTimersFire` fulfils: only its own cell changes. */
  lemma AllFirstOfThree(w: IntWorld, a: Val<int>)
    requires var l := AllStep(3, [0, 1, 2]);
      w.cells == [Cell(Pending, Undefined, [l]), Cell(Pending, Undefined, [l]), Cell(Pending, Undefined, [l]), NewCell()]
    requires Consistent(w) && AllInv(w, 3, [0, 1, 2])
    ensures var w' := Settle(w, 0, Value(a));
      var l := AllStep(3, [0, 1, 2]);
      && w'.cells == [Cell(Fulfilled, Value(a), [l]), Cell(Pending, Undefined, [l]), Cell(Pending, Undefined, [l]), NewCell()]
      && Consistent(w') && AllInv(w', 3, [0, 1, 2])
  {
    AllWaitsForEverySource(w, 0, a, 3, [0, 1, 2], 1);
    AllSettle(w, 0, Value(a), 3, [0, 1, 2]);
  }

  /** The second timer of `AllCollectsAsTimersFire` fulfils while the third is pending. */
  lemma AllNextOfThree(w: IntWorld, a: Val<int>, b: Val<int>)
    requires var l := AllStep(3, [0, 1, 2]);
      w.cells == [Cell(Fulfilled, Value(a), [l]), Cell(Pending, Undefined, [l]), Cell(Pending, Undefined, [l]), NewCell()]
    requires Consistent(w) && AllInv(w, 3, [0, 1, 2])
    ensures var w' := Settle(w, 1, Value(b));
      var l := AllStep(3, [0, 1, 2]);
      && w'.cells == [Cell(Fulfilled, Value(a), [l]), Cell(Fulfilled, Value(b), [l]), Cell(Pending, Undefined, [l]), NewCell()]
      && Consistent(w') && AllInv(w', 3, [0, 1, 2])
  {
    AllWaitsForEverySource(w, 1, b, 3, [0, 1, 2], 2);
    AllSettle(w, 1, Value(b), 3, [0, 1, 2]);
  }

  /** The third timer of `AllCollectsAsTimersFire` fulfils last. */
  lemma AllThirdLast(w: IntWorld, a: Val<int>, b: Val<int>, c: Val<int>)
    requires var l := AllStep(3, [0, 1, 2]);
      w.cells == [Cell(Fulfilled, Value(a), [l]), Cell(Fulfilled, Value(b), [l]), Cell(Pending, Undefined, [l]), NewCell()]
    requires Consistent(w) && AllInv(w, 3, [0, 1, 2])
    ensures Settle(w, 2, Value(c)).cells[3] == Cell(Fulfilled, Value(List([a, b, c])), [])
  {
    var w' := Settle(w, 2, Value(c));
    assert w'.cells[0] == w.cells[0] && w'.cells[1] == w.cells[1];
    assert w'.cells[2].result == Value(c);
    ValuesOfThree(w'.cells, a, b, c);
    AllFulfilsOnLast(w, 2, c, 0, 3, [0, 1, 2]);
  }

  /** A pending promise with a single listener `l` runs just that listener once
      its outcome is stored. */
  lemma SettleSingle<A, E>(w: Snapshot<A, E>, p: nat, l: Listener<A>, r: Result<A, E>)
    requires WellFormed(w) && p < |w.cells| && !r.Undefined?
    requires w.cells[p].state == Pending && w.cells[p].listeners == [l]
    ensures Fits(l, p, |w.cells|)
    ensures Settle(w, p, r) == FireOne(Mark(w, p, r), p, l, r)
  {
    assert Fits(w.cells[p].listeners[0], p, |w.cells|);
    var m := Mark(w, p, r);
    assert [l][1..] == [];
    assert Settle(w, p, r) == Fire(m, p, r, [l]) == Fire(FireOne(m, p, l, r), p, r, []);
  }

  /** The second half of testAll:
      `all([timer(1), timer(2), timer(3), p2]).then { XCTFail() }.catch { .. }`,
      with the first timer fulfilling and then `p2` rejecting with `e`. The
      rejection runs from `p2` through `all` (4) and `then` (5) to `catch` (6):
      the promise `catch` returns is rejected with `e`, the observer of `catch`
      is called once, with `e`, and the transform of `then` is never used. */
  lemma AllThenCatchSeesSourceError(s: IntWorld, f: Val<int> -> Val<int>, a: Val<int>, e: DummyError)
    requires Fresh(s, 4)
    ensures Consistent(s)
    ensures var s5 := AllOf(s, [0, 1, 2, 3]);
      var s7 := CatchOn(ThenOn(s5, 4, f, false), 5);
      var s9 := Settle(Settle(s7, 0, Value(a)), 3, Error(e));
      && s7.cells[6] == NewCell()
      && s9.cells[4].result == Error(e)
      && s9.cells[5] == Cell(Rejected, Error(e), [ThenStep(6, Identity, true)])
      && s9.cells[6] == Cell(Rejected, Error(e), [])
      && s9.log == s5.log + [Observed(6, e)]
  {
    var group := [0, 1, 2, 3];
    AllOverFour(s);
    var s5 := AllOf(s, group);
    ThenCatchOnAll(s5, f);
    var s7 := CatchOn(ThenOn(s5, 4, f, false), 5);
    assert s7.cells[0] == s5.cells[0] && s7.cells[1] == s5.cells[1] && s7.cells[3] == s5.cells[3];
    TimerThenRejection(s7, f, a, e);
  }

  /** The settlements of `AllThenCatchSeesSourceError`: the first timer only
      stores its value, then the rejection of source 3 runs to `catch`. */
  lemma TimerThenRejection(w: IntWorld, f: Val<int> -> Val<int>, a: Val<int>, e: DummyError)
    requires var l := AllStep(4, [0, 1, 2, 3]);
      && WellFormed(w) && |w.cells| == 7
      && w.cells[0] == w.cells[1] == w.cells[3] == Cell(Pending, Undefined, [l])
      && w.cells[4] == Cell(Pending, Undefined, [ThenStep(5, f, false)])
      && w.cells[5] == Cell(Pending, Undefined, [ThenStep(6, Identity, true)])
      && w.cells[6] == NewCell()
    ensures var w' := Settle(Settle(w, 0, Value(a)), 3, Error(e));
      && w'.cells[4].result == Error(e)
      && w'.cells[5] == Cell(Rejected, Error(e), [ThenStep(6, Identity, true)])
      && w'.cells[6] == Cell(Rejected, Error(e), [])
      && w'.log == w.log + [Observed(6, e)]
  {
    AllWaitsForEverySource(w, 0, a, 4, [0, 1, 2, 3], 1);
    AllRejectionReachesCatch(Settle(w, 0, Value(a)), f, e);
  }

  /** `.then { .. }.catch { .. }` on the pending `all` promise 4 of
      `AllThenCatchSeesSourceError`: two pending promises are chained behind it,
      and the sources are left as they were. */
  lemma ThenCatchOnAll(w: IntWorld, f: Val<int> -> Val<int>)
    requires |w.cells| == 5 && w.cells[4] == NewCell() && Consistent(w)
    ensures var w' := CatchOn(ThenOn(w, 4, f, false), 5);
      && |w'.cells| == 7 && w'.cells[..4] == w.cells[..4]
      && w'.cells[4] == Cell(Pending, Undefined, [ThenStep(5, f, false)])
      && w'.cells[5] == Cell(Pending, Undefined, [ThenStep(6, Identity, true)])
      && w'.cells[6] == NewCell()
      && w'.log == w.log
  {
    var w1 := ThenOn(w, 4, f, false);
    assert w1.cells[..4] == w.cells[..4];
    assert w1.cells[4] == Cell(Pending, Undefined, [ThenStep(5, f, false)]);
    assert w1.cells[5] == NewCell();
    var w2 := CatchOn(w1, 5);
    assert w2.cells[..5] == w1.cells[..5];
  }

  /** The rejection of source 3 in `AllThenCatchSeesSourceError`, one listener
      at a time. */
  lemma AllRejectionReachesCatch(w: IntWorld, f: Val<int> -> Val<int>, e: DummyError)
    requires WellFormed(w) && |w.cells| == 7
    requires w.cells[3] == Cell(Pending, Undefined, [AllStep(4, [0, 1, 2, 3])])
    requires w.cells[4] == Cell(Pending, Undefined, [ThenStep(5, f, false)])
    requires w.cells[5] == Cell(Pending, Undefined, [ThenStep(6, Identity, true)])
    requires w.cells[6] == NewCell()
    ensures var w' := Settle(w, 3, Error(e));
      && w'.cells[4].result == Error(e)
      && w'.cells[5] == Cell(Rejected, Error(e), [ThenStep(6, Identity, true)])
      && w'.cells[6] == Cell(Rejected, Error(e), [])
      && w'.log == w.log + [Observed(6, e)]
  {
    var r: Result<int, DummyError> := Error(e);
    SettleSingle(w, 3, AllStep(4, [0, 1, 2, 3]), r);
    var m1 := Mark(w, 3, r);
    SettleSingle(m1, 4, ThenStep(5, f, false), r);
    var m2 := Mark(m1, 4, r);
    SettleSingle(m2, 5, ThenStep(6, Identity, true), r);
    var m3 := Mark(m2, 5, r);
    var m4 := Settle(m3, 6, r);
    assert m4 == m3.(cells := m3.cells[6 := Cell(Rejected, r, [])]);
    assert Settle(w, 3, r) == m4.(log := m4.log + [Observed(6, e)]);
  }

  /** `all([x.then(f)])` with `x` pending, before anything settles: `x` (0)
      carries the `then` listener, the `then` promise (1) the `all` listener,
      and the `all` promise (2) is pending, wired and due. */
  lemma AllOverThenWorld(s: IntWorld, f: Val<int> -> Val<int>)
    requires Fresh(s, 1)
    ensures Consistent(s)
    ensures var s2 := AllOf(ThenOn(s, 0, f, false), [1]);
      && |s2.cells| == 3 && Consistent(s2)
      && s2.cells[0] == Cell(Pending, Undefined, [ThenStep(1, f, false)])
      && s2.cells[1] == Cell(Pending, Undefined, [AllStep(2, [1])])
      && s2.cells[2] == NewCell()
      && AllInv(s2, 2, [1]) && AllRegistered(s2, 2, [1]) && AllDue(s2, 2, [1], {})
  {
    assert s.cells[0] == NewCell();
    var s1 := ThenOn(s, 0, f, false);
    assert s1.cells[0] == Cell(Pending, Undefined, [ThenStep(1, f, false)]) && s1.cells[1] == NewCell();
    var l: Listener<int> := AllStep(2, [1]);
    assert AllOf(s1, [1]) == Register(Create(s1), 1, l);
    AllOfEstablishes(s1, [1]);
    AllOfDue(s1, [1]);
  }

  /** The world `AllOverThenWorld` builds, whatever its ids were made by:
      fulfilling `x` (0) with `v` fulfils the `then` promise (1) with `f(v)` and
      the `all` promise (2) with `[f(v)]`. */
  lemma AllOverThenOutcome(s2: IntWorld, f: Val<int> -> Val<int>, v: Val<int>)
    requires |s2.cells| == 3 && Consistent(s2)
    requires s2.cells[0] == Cell(Pending, Undefined, [ThenStep(1, f, false)])
    requires s2.cells[1] == Cell(Pending, Undefined, [AllStep(2, [1])])
    requires s2.cells[2] == NewCell()
    requires AllInv(s2, 2, [1]) && AllRegistered(s2, 2, [1]) && AllDue(s2, 2, [1], {})
    ensures var s3 := Settle(s2, 0, Value(v));
      && s3.cells[1] == Cell(Fulfilled, Value(f(v)), [AllStep(2, [1])])
      && s3.cells[2].state == Fulfilled
      && s3.cells[2].result == Value(List([f(v)]))
  {
    DeliveredThen(s2, 0, v, 0);
    AllOutcomeAfterSettle(s2, 0, Value(v), 2, [1]);
    var s3 := Settle(s2, 0, Value(v));
    assert ValuesOf(s3.cells, [1]) == [f(v)];
  }

  /** `all([x.then(f)])` with `x` pending: fulfilling `x` with `v` runs `then`,
      whose promise (1) is fulfilled with `f(v)`, and that reaches `all` (2),
      which is fulfilled with `[f(v)]`. The source of `all` is settled through a
      chain, not directly. */
  lemma AllOverThenSettles(s: IntWorld, f: Val<int> -> Val<int>, v: Val<int>)
    requires Fresh(s, 1)
    ensures Consistent(s)
    ensures var s2 := AllOf(ThenOn(s, 0, f, false), [1]);
      var s3 := Settle(s2, 0, Value(v));
      && s2.cells[2].state == Pending
      && s3.cells[1] == Cell(Fulfilled, Value(f(v)), [AllStep(2, [1])])
      && s3.cells[2].state == Fulfilled
      && s3.cells[2].result == Value(List([f(v)]))
  {
    AllOverThenWorld(s, f);
    AllOverThenOutcome(AllOf(ThenOn(s, 0, f, false), [1]), f, v);
  }

  /** `x.then(increment).then(doubleUp)` registered while `x` is pending, then
      `x` is fulfilled with 10: the second derived promise (2) is Fulfilled with
      22, though `x`'s own registration only reaches the first (1). A rejection
      of `x` reaches (2) unchanged. */
  lemma ThenChainAfterSettle(s: IntWorld, e: DummyError)
    requires Fresh(s, 1)
    ensures Consistent(s)
    ensures var s2 := ThenOn(ThenOn(s, 0, Increment, false), 1, DoubleUp, false);
      && Settle(s2, 0, Value(Atom(10))).cells[2].state == Fulfilled
      && Settle(s2, 0, Value(Atom(10))).cells[2].result == Value(Atom(22))
      && Settle(s2, 0, Error(e)).cells[2].state == Rejected
      && Settle(s2, 0, Error(e)).cells[2].result == Error(e)
  {
    assert s.cells[0] == NewCell();
    assert ThenDue(s, {});
    ThenChainDelivers(s, 0, Increment, DoubleUp, Value(Atom(10)));
    ThenChainDelivers(s, 0, Increment, DoubleUp, Error(e));
  }
}

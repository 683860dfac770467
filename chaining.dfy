/** `then` and `catch`: what the derived promise ends up holding, whether the
    registration comes before or after its source settles. */
module Chaining {
  import opened PromiseTypes
  import opened Semantics
  import opened Cascade

  /** The outcome a `then(f)` registration passes on: the transformed value,
      or the same error. */
  function Transformed<A, E>(f: Val<A> -> Val<A>, r: Result<A, E>): Result<A, E>
  {
    match r
    case Value(v) => Value(f(v))
    case _ => r
  }

  /** `then` registered while `p` is pending, then `p` settles with `r`: the
      derived promise holds the transformed outcome, and on a rejection the
      observer is the last thing called, with the same error. */
  lemma ThenThenSettle<A, E>(s: Snapshot<A, E>, p: nat, f: Val<A> -> Val<A>, observed: bool, r: Result<A, E>)
    requires Consistent(s) && p < |s.cells| && s.cells[p].state == Pending && !r.Undefined?
    ensures var s' := Settle(ThenOn(s, p, f, observed), p, r);
      && s'.cells[|s.cells|] == Cell(StateOf(r), Transformed(f, r), [])
      && (r.Error? && observed ==> |s'.log| > 0 && s'.log[|s'.log| - 1] == Observed(|s.cells|, r.error))
  {
    var q := |s.cells|;
    var l := ThenStep(q, f, observed);
    var sa := ThenOn(s, p, f, observed);
    var ls := s.cells[p].listeners;
    assert sa.cells[p].listeners == ls + [l];
    var m := Mark(sa, p, r);
    assert forall k :: 0 <= k < |ls| ==> Fits(ls[k], p, |sa.cells|) && ls[k].target !in {q} by {
      forall k | 0 <= k < |ls| ensures Fits(ls[k], p, |sa.cells|) && ls[k].target !in {q} {
        assert Fits(s.cells[p].listeners[k], p, |s.cells|);
      }
    }
    FireSplit(m, p, r, ls, [l]);
    var s1 := Fire(m, p, r, ls);
    assert Fire(s1, p, r, [l]) == FireOne(s1, p, l, r);
    assert Unaimed(m, {q}) by {
      forall i, k | 0 <= i < |m.cells| && i !in {q} && m.cells[i].state == Pending && 0 <= k < |m.cells[i].listeners|
        ensures m.cells[i].listeners[k].target !in {q}
      {
        if i < q {
          assert i != p && m.cells[i] == s.cells[i];
          assert Fits(s.cells[i].listeners[k], i, |s.cells|);
        }
      }
    }
    FireFrame(m, p, r, ls, {q});
    assert s1.cells[q] == NewCell();
  }

  /** Registering `then` before or after its source settles gives the derived
      promise the same outcome, and an observer called in either case gets
      the same error. */
  lemma ThenBeforeOrAfter<A, E>(s: Snapshot<A, E>, p: nat, f: Val<A> -> Val<A>, observed: bool, r: Result<A, E>)
    requires Consistent(s) && p < |s.cells| && s.cells[p].state == Pending && !r.Undefined?
    ensures var before := Settle(ThenOn(s, p, f, observed), p, r);
      var after := ThenOn(Settle(s, p, r), p, f, observed);
      && before.cells[|s.cells|] == after.cells[|s.cells|] == Cell(StateOf(r), Transformed(f, r), [])
      && (r.Error? && observed ==>
            && |before.log| > 0 && |after.log| > 0
            && before.log[|before.log| - 1] == after.log[|after.log| - 1] == Observed(|s.cells|, r.error))
  {
    ThenThenSettle(s, p, f, observed, r);
  }

  /** `catch` never changes an outcome: the promise it returns ends with its
      source's outcome, and on a rejection the observer is called with that
      error; registered before or after settlement alike. */
  lemma CatchKeepsOutcome<A, E>(s: Snapshot<A, E>, p: nat, r: Result<A, E>)
    requires Consistent(s) && p < |s.cells| && s.cells[p].state == Pending && !r.Undefined?
    ensures var before := Settle(CatchOn(s, p), p, r);
      && before.cells[|s.cells|].result == r
      && (r.Error? ==> |before.log| > 0 && before.log[|before.log| - 1] == Observed(|s.cells|, r.error))
    ensures var after := CatchOn(Settle(s, p, r), p);
      && after.cells[|s.cells|].result == r
      && (r.Error? ==> after.log[|after.log| - 1] == Observed(|s.cells|, r.error))
  {
    ThenThenSettle(s, p, Identity, true, r);
  }
}

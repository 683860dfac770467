/** The data of the settlement state machine: what one promise holds and what a
    world of promises, indexed by id, looks like between two operations. */
module PromiseTypes {

  /** The `state` field of a promise. */
  datatype State = Pending | Fulfilled | Rejected

  /** Values carried by promises. A transform given to `then` may change the
      value's type and `all` fulfils with an array of its sources' values, so one
      value domain holds both a plain value and a list of values. */
  datatype Val<A> = Atom(a: A) | List(items: seq<Val<A>>)

  /** The `result` field of a promise; `E` is the opaque error type. */
  datatype Result<A, E> = Undefined | Value(value: Val<A>) | Error(error: E)

  /** The state that goes with a stored result. */
  function StateOf<A, E>(r: Result<A, E>): State
  {
    match r
    case Undefined => Pending
    case Value(_) => Fulfilled
    case Error(_) => Rejected
  }

  /** One registration on a promise. Every registration extends the fulfil chain
      and the reject chain together, so a single record holds both halves:
      - ThenStep: `then(transform, observer)`; on fulfilment settles `target`
        with the transformed value; on rejection rejects `target` with the same
        error and, when `observed`, calls the observer with it.
      - AllStep: the listener `all(group)` puts on each of its sources; `target`
        is the promise `all` returned.
      - RaceStep: the listener `race` puts on each of its sources. */
  datatype Listener<!A> =
    | ThenStep(target: nat, transform: Val<A> -> Val<A>, observed: bool)
    | AllStep(target: nat, group: seq<nat>)
    | RaceStep(target: nat)

  /** A call of a `then`/`catch` observer, named by the id of the promise that
      `then` returned, with the error it was given. */
  datatype Note<E> = Observed(derived: nat, error: E)

  /** One promise: its `state`, its `result` and its listener chain, earliest
      registration first. */
  datatype Cell<!A, E> = Cell(state: State, result: Result<A, E>, listeners: seq<Listener<A>>)

  /** All promises, indexed by id in creation order, and every observer call so far. */
  datatype Snapshot<!A, E> = Snapshot(cells: seq<Cell<A, E>>, log: seq<Note<E>>)

  /** A promise with no registrations, as every constructor makes it. */
  function NewCell<A, E>(): Cell<A, E>
  {
    Cell(Pending, Undefined, [])
  }

  /** State and result agree. */
  predicate Coherent<A, E>(c: Cell<A, E>)
  {
    && (c.state == Pending <==> c.result.Undefined?)
    && (c.state == Fulfilled <==> c.result.Value?)
    && (c.state == Rejected <==> c.result.Error?)
  }

  predicate AllCoherent<A, E>(s: Snapshot<A, E>)
  {
    forall i :: 0 <= i < |s.cells| ==> Coherent(s.cells[i])
  }

  /** A listener registered on promise `p` in a world of `n` promises points at a
      newer promise. */
  predicate Fits<A>(l: Listener<A>, p: nat, n: nat)
  {
    p < l.target && Aims(l, n)
  }

  /** The target of `l` exists in a world of `n` promises, and the sources of an
      `all` listener are older than its target. */
  predicate Aims<A>(l: Listener<A>, n: nat)
  {
    && l.target < n
    && (l.AllStep? ==> forall j :: 0 <= j < |l.group| ==> l.group[j] < l.target)
  }

  predicate WellFormed<A, E>(s: Snapshot<A, E>)
  {
    forall i, k :: 0 <= i < |s.cells| && 0 <= k < |s.cells[i].listeners| ==>
      Fits(s.cells[i].listeners[k], i, |s.cells|)
  }

  /** The invariant every operation keeps. */
  predicate Consistent<A, E>(s: Snapshot<A, E>)
  {
    WellFormed(s) && AllCoherent(s)
  }

  /** `s'` has the same promises as `s` with the same listener chains. */
  ghost predicate SameShape<A, E>(s: Snapshot<A, E>, s': Snapshot<A, E>)
  {
    && |s'.cells| == |s.cells|
    && forall i :: 0 <= i < |s.cells| ==> s'.cells[i].listeners == s.cells[i].listeners
  }

  /** Settled promises are left alone and the observer log only grows. */
  ghost predicate Grows<A, E>(s: Snapshot<A, E>, s': Snapshot<A, E>)
    requires |s.cells| <= |s'.cells|
  {
    && (forall i :: 0 <= i < |s.cells| && s.cells[i].state != Pending ==> s'.cells[i] == s.cells[i])
    && s.log <= s'.log
  }

  /** Every promise of `group` exists in `s`. */
  predicate Exist<A, E>(s: Snapshot<A, E>, group: seq<nat>)
  {
    forall j :: 0 <= j < |group| ==> group[j] < |s.cells|
  }
}

# Promise.swift settlement machine in Dafny

This project models the core of `Promise.swift`, a small promise library for
Swift. A `Promise<T>` holds a `state` (Pending, Fulfilled or Rejected), a
`result` (Undefined, a value or an error) and two closure chains, `resolve` and
`reject`. `onFulfilled`/`onRejected` settle a pending promise, and the `didSet`
observer on `state` then runs the matching chain. `then` and `catch` extend the
chains of a pending promise, or settle the derived promise at once when the
source has already settled. `all` and `race` register a step on each of their
sources in a `forEach` loop.

The model is a world of promises indexed by id, in creation order:

- `promise_types.dfy` (module `PromiseTypes`): `State` and `Result`, plus the
  value domain `Val` (one value, or a list of values for `all`).
  - Listener records `ThenStep`, `AllStep` and `RaceStep` stand for the
    closures the source appends to its chains.
  - `Cell` is one promise and `Snapshot` is the whole world.
  - `Consistent` is the invariant every operation keeps: listeners point at
    newer promises, and state and result agree.
- `semantics.dfy` (module `Semantics`): every operation as a function on
  snapshots. These are settling, firing a chain, registering, `then`, `catch`,
  `all`, `race`, `resolve`, `reject` and `init(_ promise:)`.
- `runtime.dfy` (module `PromiseRuntime`): class `World` keeps the promises
  in mutable fields. Its methods update them in place, as the Swift class
  does, and each method is proved equal to the function that specifies it.
  `FireChain`, `All` and `Race` are loops with invariants.
- `cascade.dfy` (module `Cascade`): what one settlement does to the rest of
  the world.
  - Chains run in registration order.
  - Every registration's target is settled.
  - A rejection travels unchanged.
  - Promises that nothing pending points at are left alone.
- `chaining.dfy` (module `Chaining`): the derived promise of `then` and
  `catch`, with the registration made before or after settlement.
- `then_chain.dfy` (module `ThenChain`): delivery along `then` chains. Every
  promise `then` or `catch` returns keeps an invariant: it is aimed at only
  by its own registration, and once settled it holds the transformed
  outcome of its source. A world-wide invariant says every `then`
  registration on a settled promise has run. Together they settle a derived
  promise as soon as its source settles, however deep in a cascade that
  happens, so `p.then(f).then(g)` reaches `g(f(v))`.
- `all.dfy` (module `AllCombinator`) and `race.dfy` (module
  `RaceCombinator`): an invariant for each combinator's promise, preserved by
  every settlement, and what the promise holds when it settles. A second
  invariant, "due", says the promise is settled as soon as its sources call
  for it, whether a source was settled directly or through another promise's
  chain.
- `scenarios.dfy` (module `Scenarios`): the scenarios of
  `PromiseTests/PromiseTests.swift`, replayed on the model. A test's sources
  are the fresh promises `0 .. n - 1`, made before anything else.
  - Each executor's `sleep` becomes the order of the settle calls. Where two
    sleeps are equal, the scenario picks one order and says which.
  - Each observer call is an entry in the snapshot's log.

The executor of every promise runs at once, so the whole machine is
sequential.

`all([])` stays pending: with no sources, no step is ever registered
(Promise/Promise.swift:135-155, `Semantics.AllOf`). `race([])` stays pending
for the same reason (`Semantics.RaceOf`). No later settlement changes either
of them (`AllCombinator.AllEmptyStaysPending`,
`RaceCombinator.RaceEmptyStaysPending`).

## Model

| member | source | states |
|---|---|---|
| Semantics.Settle | Promise/Promise.swift:81-93 | First writer wins. On a settled promise, settling changes nothing at all: no state, result, chain or log entry changes and nothing fires. On a pending promise, the promise ends with the state that matches the outcome, the outcome as its result, and its chain kept. A promise without listeners changes in that one cell only. Settled promises stay as they are, chains are never dropped, the log only grows, and coherence of state and result is kept. |
| Semantics.Fire | Promise/Promise.swift:26-37 | Running a chain keeps every chain and every settled promise as it was. The log only grows, and coherence is kept. |
| Semantics.FireOne | Promise/Promise.swift:99-109 | One registration run with an outcome keeps chains and settled promises, and keeps coherence. |
| Semantics.CountFulfilled | Promise/Promise.swift:139 | The count is at most the group size. It equals the group size exactly when every source is Fulfilled. |
| Semantics.FlatValues | Promise/Promise.swift:140-146 | `flatMap` yields at most one value per source. |
| Semantics.Create | Promise/Promise.swift:43-47 | A new promise gets the next id. It is pending with no registrations, and nothing else changes. |
| Semantics.Register | Promise/Promise.swift:95-119 | On a pending promise, the listener is appended to its chain and nothing else changes. On a settled promise, the promise itself is unchanged. No other promise's chain changes, settled promises stay as they are, and consistency is kept. |
| Semantics.RegisterEach | Promise/Promise.swift:137-153 | Registering on each source in turn keeps consistency. Settled promises stay as they are. |
| Semantics.ThenOn | Promise/Promise.swift:95-127 | Pending source: the derived promise is new and pending, and the step is appended to the source's chain. Fulfilled source: the derived promise is Fulfilled with the transformed value. Rejected source: the derived promise is Rejected with the same error, and the observer is logged with that error only when one was given. |
| Semantics.CatchOn | Promise/Promise.swift:129-131 | Pending source: the new promise is pending, an identity step with an observer is appended to the source's chain, and nothing else changes. Fulfilled source: the new promise is Fulfilled with the same value, and the log is unchanged. Rejected source: the new promise is Rejected with the same error, and the observer is logged once, with that error. In every case no other promise changes. |
| Semantics.AllOf | Promise/Promise.swift:135-155 | Consistency is kept and settled promises stay as they are. The promise of `all([])` stays Pending. |
| Semantics.RaceOf | Promise/Promise.swift:157-161 | Consistency is kept and settled promises stay as they are. The promise of `race([])` stays Pending. |
| Semantics.Resolve | Promise/Promise.swift:163-171 | `resolve(v)` adds exactly one promise, Fulfilled with `v` and with no registrations. Nothing else changes. |
| Semantics.Reject | Promise/Promise.swift:173-181 | `reject(e)` adds exactly one promise, Rejected with `e`. Nothing else changes. |
| Semantics.CopyOf | Promise/Promise.swift:60-67 | `Promise(p)` for a settled `p` adds one promise with `p`'s state and result. |
| PromiseRuntime.World.Create | Promise/Promise.swift:43-47 | In place: the new id is the old count, and the new world is `Semantics.Create` of the old one. |
| PromiseRuntime.World.OnFulfilled | Promise/Promise.swift:81-86 | It stores the result, then the state, then runs the `didSet` observer. The new world is `Settle` with the value. |
| PromiseRuntime.World.OnRejected | Promise/Promise.swift:88-93 | It stores the result, then the state, then runs the `didSet` observer. The new world is `Settle` with the error. |
| PromiseRuntime.World.DidSetState | Promise/Promise.swift:26-37 | On the way out of Pending, the chain runs with the stored outcome. Otherwise nothing changes. |
| PromiseRuntime.World.FireChain | Promise/Promise.swift:99-109 | The loop runs the chain one registration at a time, oldest first. The result equals `Semantics.Fire`. |
| PromiseRuntime.World.Step | Promise/Promise.swift:99-109 | One registration is run, with the `then`, `all` or `race` step. The result equals `Semantics.FireOne`. |
| PromiseRuntime.World.Register | Promise/Promise.swift:95-119 | On a pending promise, the chain is extended in place. On a settled promise, the step runs at once. The result equals `Semantics.Register`. |
| PromiseRuntime.World.Then | Promise/Promise.swift:121-127 | `then`, with or without an observer, equals `Semantics.ThenOn`. |
| PromiseRuntime.World.Catch | Promise/Promise.swift:129-131 | `catch` equals `Semantics.CatchOn`. |
| PromiseRuntime.World.All | Promise/Promise.swift:135-155 | The `forEach` registration loop equals `Semantics.AllOf`. |
| PromiseRuntime.World.Race | Promise/Promise.swift:157-161 | The `forEach` registration loop equals `Semantics.RaceOf`. |
| PromiseRuntime.World.Resolve | Promise/Promise.swift:163-171 | Equals `Semantics.Resolve`. |
| PromiseRuntime.World.Reject | Promise/Promise.swift:173-181 | Equals `Semantics.Reject`. |
| PromiseRuntime.World.CopyOf | Promise/Promise.swift:60-67 | Copying a settled promise's outcome equals `Semantics.CopyOf`. |
| Cascade.FireSplit | Promise/Promise.swift:99-109 | Running a chain in two parts is the same as running it whole, so delivery order is registration order. |
| Cascade.ChainAt | Promise/Promise.swift:99-109 | The `k`-th registration runs after all earlier ones and before all later ones. |
| Cascade.SettleRejectsWith | Promise/Promise.swift:104-109 | A rejection with `e` settles other promises only as Rejected with `e`. Every observer it reaches is called with `e`. |
| Cascade.FireRejectsWith | Promise/Promise.swift:104-109 | The same as `SettleRejectsWith`, for a whole chain. |
| Cascade.FireOneRejectsWith | Promise/Promise.swift:104-109 | The same as `SettleRejectsWith`, for one registration. |
| Cascade.SettleFrame | Promise/Promise.swift:26-37 | Suppose no pending promise outside a set has a listener aimed into the set. Then settling a promise outside the set leaves every promise in the set unchanged. |
| Cascade.FireFrame | Promise/Promise.swift:26-37 | The same as `SettleFrame`, for a chain none of whose listeners aims into the set. |
| Cascade.FireOneFrame | Promise/Promise.swift:26-37 | The same as `SettleFrame`, for one registration. |
| Cascade.FireOneSettlesTarget | Promise/Promise.swift:99-114 | A registration settles its target when it runs. The exception is an `all` step given a value. |
| Cascade.Delivered | Promise/Promise.swift:26-37 | Every registration on a pending promise is delivered. Its target is settled once the promise settles, except an `all` step given a value. |
| Cascade.DeliveredReject | Promise/Promise.swift:104-109 | Rejecting a promise with `e` rejects the pending target of each of its registrations with `e`. This holds for `then`, `catch`, `all` and `race` alike. |
| Cascade.DeliveredThen | Promise/Promise.swift:99-103 | Fulfilling with `v` fulfils the derived promise of a `then` with `f(v)`. |
| Cascade.RegisterOnlyRegisters | Promise/Promise.swift:137-153 | One `all` or `race` registration appends to a pending source's chain, or runs the step at once on a settled one. No state or result changes except at the combinator's own promise. |
| Cascade.RegisterEachLeavesRest | Promise/Promise.swift:137-153 | The `forEach` adds one copy of the listener per occurrence of each pending source, and no state, result or log changes, except at the combinator's own promise. |
| Cascade.RegisterEachKeepsTarget | Promise/Promise.swift:137-153 | While every source is pending, the `forEach` leaves the combinator's promise unchanged. |
| Cascade.SettleChainsGrow | Promise/Promise.swift:81-93 | A settlement never removes or reorders a registration: every chain after it extends the chain before it. |
| Cascade.RegisterChainsGrow | Promise/Promise.swift:95-119 | A registration never removes or reorders a registration: every chain after it extends the chain before it. |
| Cascade.RegisterEachChainsGrow | Promise/Promise.swift:137-153 | The same as `RegisterChainsGrow`, for the `forEach` of `all` and `race`. |
| Chaining.ThenThenSettle | Promise/Promise.swift:99-109 | `then` is registered on a pending promise, which then settles with `r`. The derived promise ends with the transformed value or the same error, and has no registrations. On a rejection, the last call in the log is the observer, with that error. |
| Chaining.ThenBeforeOrAfter | Promise/Promise.swift:99-114 | Registering `then` before or after its source settles gives the same derived promise and the same last observer call. |
| Chaining.CatchKeepsOutcome | Promise/Promise.swift:129-131 | The promise `catch` returns ends with its source's outcome, whether registered before or after settlement. On a rejection, the observer is called with the error. |
| ThenChain.ThenTargetsHas | Promise/Promise.swift:99-103 | The target of each `then` registration in a chain is among the chain's `then` targets. |
| ThenChain.ThenDueSettle | Promise/Promise.swift:81-93 | Any settlement, with the whole cascade it sets off, leaves every `then` registration on a settled promise run: its target is settled. Targets whose registration is still to run higher in the cascade are excused, and the promise being settled is settled afterwards. |
| ThenChain.ThenDueFire | Promise/Promise.swift:26-37 | Running a chain discharges the excuse of each `then` target in it. |
| ThenChain.ThenDueFireOne | Promise/Promise.swift:99-109 | One registration run settles its `then` target and keeps every other `then` registration on a settled promise run. |
| ThenChain.ThenWiredKept | Promise/Promise.swift:95-119 | The wiring of a derived promise survives any step that keeps every chain. |
| ThenChain.ThenRegisteredKept | Promise/Promise.swift:98-109 | While a derived promise is pending, its registration stays on its source's chain. |
| ThenChain.ThenSettle | Promise/Promise.swift:81-93 | Every settlement keeps what a derived promise holds: once settled, its source is settled and it holds `f(v)` or the same error. A settlement of the derived promise itself must be the one its registration makes. |
| ThenChain.ThenFire | Promise/Promise.swift:26-37 | Running a chain keeps what a derived promise holds. |
| ThenChain.ThenFireOne | Promise/Promise.swift:99-109 | One registration run keeps what a derived promise holds; its own registration gives `f(v)` or the same error. |
| ThenChain.ThenWiredIsSole | Promise/Promise.swift:95-119 | The registration that created a derived promise is a `then(f)` registration and is the only one aimed at it. |
| ThenChain.ThenOnEstablishes | Promise/Promise.swift:95-127 | `then` returns a promise that has the invariant, whether its source is pending or settled. |
| ThenChain.CatchOnEstablishes | Promise/Promise.swift:129-131 | `catch` returns a promise that has the invariant, with the identity as transform. |
| ThenChain.ThenKeptByCreate | Promise/Promise.swift:43-47 | Creating a promise keeps the invariant and keeps every `then` registration on a settled promise run. |
| ThenChain.ThenKeptBySettle | Promise/Promise.swift:81-93 | Any settlement keeps the invariant and keeps registrations run. A settlement of the derived promise itself must come after its source settled. |
| ThenChain.ThenKeptByRegister | Promise/Promise.swift:95-119 | A registration aimed at another promise keeps them, including one run at once on a settled promise. |
| ThenChain.ThenKeptByRegisterEach | Promise/Promise.swift:137-159 | The `forEach` of `all` or `race` keeps them. |
| ThenChain.ThenKeptByOperations | Promise/Promise.swift:121-181 | `then`, `catch`, `all`, `race`, `resolve`, `reject` and `Promise(x)` of a settled `x` keep them. |
| ThenChain.ThenOutcomeAfterSettle | Promise/Promise.swift:26-37 | After any settlement of any promise and its cascade, the invariants still hold, and a derived promise whose source is settled is settled in the same state, holding `f(v)` or the same error. |
| ThenChain.ThenDueKeptByThen | Promise/Promise.swift:95-127 | `then` keeps every `then` registration on a settled promise run, including the one it runs at once. |
| ThenChain.ThenChainWorld | Promise/Promise.swift:95-127 | `p.then(f).then(g)` on a pending `p` gives two derived promises with the invariant, and keeps registrations run. |
| ThenChain.ThenChainOutcome | Promise/Promise.swift:26-37 | Where `q` is `p.then(f)` and `q'` is `q.then(g)`, settling `p` with `r` gives `q` the outcome `f` makes of `r` and `q'` the outcome `g` makes of that. |
| ThenChain.ThenChainDelivers | Promise/Promise.swift:99-109 | `p.then(f).then(g)` registered while `p` is pending, then `p` settled with `r`: the second derived promise ends in the state of `r`, holding `g(f(v))` or the same error. |
| AllCombinator.JustifiedKept | Promise/Promise.swift:135-155 | An outcome that `all` may hold stays justified across any step that leaves settled promises alone. |
| AllCombinator.FlatValuesInOrder | Promise/Promise.swift:140-146 | Over fulfilled sources, `flatMap` gives every source's value, in input order. |
| AllCombinator.AllSettle | Promise/Promise.swift:135-155 | Every settlement keeps the `all` invariant. The `all` promise only ever holds nothing, the list of every source's value in input order, or the error of one of its sources. |
| AllCombinator.AllFire | Promise/Promise.swift:135-155 | Running a chain keeps the `all` invariant. |
| AllCombinator.AllFireOne | Promise/Promise.swift:138-152 | One registration run keeps the `all` invariant. |
| AllCombinator.SettledAllFulfilled | Promise/Promise.swift:139-147 | A settled `all` promise whose sources are all Fulfilled holds their values in input order. |
| AllCombinator.AllReachedOnLast | Promise/Promise.swift:139-147 | When the last pending source is fulfilled, the `all` promise settles. |
| AllCombinator.AllStepSettles | Promise/Promise.swift:139-147 | An `all` step given a value once every source is Fulfilled settles the `all` promise. |
| AllCombinator.AllFulfilsOnLast | Promise/Promise.swift:135-155 | When the last pending source is fulfilled with `v`, the `all` promise is Fulfilled with every source's value, in input order, with `v` in that source's place. |
| AllCombinator.RegisterEachAll | Promise/Promise.swift:137-153 | The `forEach` keeps the invariant and leaves the step on every pending source. |
| AllCombinator.AllOfEstablishes | Promise/Promise.swift:135-155 | `all` returns a promise that has the invariant and is listened for by every pending source. |
| AllCombinator.RegisterEachSettles | Promise/Promise.swift:137-153 | Registering on a source that has already settled settles the target of the step. The exception is an `all` step whose sources are not all Fulfilled. |
| AllCombinator.AllRejectsAtOnce | Promise/Promise.swift:135-155 | If a source is already Rejected when `all` is called, the `all` promise is Rejected at once with the error of a rejected source. |
| AllCombinator.SettledAllRejected | Promise/Promise.swift:150-152 | A settled `all` promise with a rejected source is Rejected, with the error of a rejected source. |
| AllCombinator.AllFulfilsAtOnce | Promise/Promise.swift:135-155 | If every source of a non-empty group is already Fulfilled, `all` fulfils at once with their values in input order. |
| AllCombinator.AllStepsWait | Promise/Promise.swift:139 | `all` steps given a value while some source is not Fulfilled change nothing. |
| AllCombinator.AllWaitsForEverySource | Promise/Promise.swift:138-149 | Take a pending source whose every registration is the step of one `all`, `AllStep(t, group)`. If it is fulfilled while another source of that `group` is pending, only its own promise changes. |
| AllCombinator.AllRegisteredKept | Promise/Promise.swift:137-153 | Any step that leaves settled promises alone and drops no registration keeps the `all` step on every pending source. |
| AllCombinator.AllKeptByCreate | Promise/Promise.swift:43-47 | Creating a promise keeps the `all` invariant and keeps the `all` step on every pending source. |
| AllCombinator.AllKeptBySettle | Promise/Promise.swift:81-93 | Any settlement keeps the invariant and the registrations. A settlement of the `all` promise itself must hold an outcome the invariant admits. |
| AllCombinator.AllKeptByRegister | Promise/Promise.swift:95-119 | A registration aimed at another promise keeps the invariant and the registrations. |
| AllCombinator.AllKeptByRegisterEach | Promise/Promise.swift:137-153 | The `forEach` of another combinator keeps the invariant and the registrations. |
| AllCombinator.AllKeptByThen | Promise/Promise.swift:121-131 | `then` and `catch` on any promise keep the invariant and the registrations. |
| AllCombinator.AllKeptByCombinators | Promise/Promise.swift:135-161 | Another `all` or a `race` keeps the invariant and the registrations. |
| AllCombinator.AllKeptByConstructors | Promise/Promise.swift:163-181 | `resolve`, `reject` and `Promise(p)` of a settled `p` keep the invariant and the registrations. |
| AllCombinator.AllFulfilsWhenLastSettles | Promise/Promise.swift:138-149 | With the invariant and the registrations that `all` establishes, fulfilling the last pending source fulfils the `all` promise with every source's value in input order. |
| AllCombinator.AllRejectsWhenSourceRejects | Promise/Promise.swift:150-152 | With the invariant and the registrations, rejecting any source with `e` while the `all` promise is pending rejects it with exactly `e`. |
| AllCombinator.RegisterEachAllFirstRejected | Promise/Promise.swift:137-153 | Registration runs in input order: when the first rejected source is `ps[j]`, the earlier ones being pending or fulfilled, the fresh `all` promise is Rejected with exactly its error, with executors run at once. |
| AllCombinator.RegisterBeforeRejected | Promise/Promise.swift:138-152 | Registering on a source that is not rejected, while a source of the group is rejected, changes no state or result and leaves the fresh `all` promise as it is. |
| AllCombinator.AllRejectsWithFirstError | Promise/Promise.swift:135-155 | When sources have already settled when `all` is called, the `all` promise is Rejected at once with the error of the first rejected source in input order, with executors run at once. |
| AllCombinator.AllDueSettle | Promise/Promise.swift:81-93 | Any settlement, with the whole cascade it sets off, keeps the `all` promise due: once every source is Fulfilled, or one is Rejected, the `all` promise is not Pending. A source may be settled directly or through another promise's chain. Sources whose `all` step is still to run higher in the cascade are excused. |
| AllCombinator.AllDueFire | Promise/Promise.swift:26-37 | Running a chain keeps the `all` promise due. A source stays excused only while its `all` step is still among the registrations to run. |
| AllCombinator.AllDueFireOne | Promise/Promise.swift:99-109 | One registration run keeps the `all` promise due. Running the `all` step of a source settles the `all` promise when that source completes the group or is Rejected. |
| AllCombinator.AllOfDue | Promise/Promise.swift:135-155 | `all` returns a promise that is due: settled at once when its sources are already all fulfilled, or one is already rejected. |
| AllCombinator.AllOutcomeAfterSettle | Promise/Promise.swift:135-155 | After any settlement of any promise and its cascade, the invariant, the registrations and being due still hold. When every source is then Fulfilled, the `all` promise is Fulfilled with their values in input order. When some source is Rejected, the `all` promise is Rejected with the error of a rejected source. |
| AllCombinator.AllDueKeptByCreate | Promise/Promise.swift:43-47 | Creating a promise keeps the `all` promise due. |
| AllCombinator.AllDueKeptByRegister | Promise/Promise.swift:95-119 | A registration aimed at another promise keeps the `all` promise due, including the chain it runs at once on a settled promise. |
| AllCombinator.AllDueKeptByRegisterEach | Promise/Promise.swift:137-153 | The `forEach` of another combinator keeps the `all` promise due. |
| AllCombinator.AllDueKeptByOperations | Promise/Promise.swift:121-181 | `then`, `catch`, another `all`, a `race`, `resolve`, `reject` and `Promise(p)` of a settled `p` keep the `all` promise due. |
| AllCombinator.AllEmptyStaysPending | Promise/Promise.swift:135-155 | `all([])` has no source: no settlement of another promise, with its cascade, changes the `all` promise, so it stays Pending for good. |
| RaceCombinator.AdoptedKept | Promise/Promise.swift:157-161 | An outcome `race` may hold stays so across any step that leaves settled promises alone. |
| RaceCombinator.RaceSettle | Promise/Promise.swift:157-161 | Every settlement keeps the `race` invariant. The `race` promise only ever holds nothing, or the exact outcome of one of its sources. |
| RaceCombinator.RaceFire | Promise/Promise.swift:157-161 | Running a chain keeps the `race` invariant. |
| RaceCombinator.RaceFireOne | Promise/Promise.swift:159 | One registration run keeps the `race` invariant. |
| RaceCombinator.RegisterEachRace | Promise/Promise.swift:159 | The `forEach` keeps the invariant and leaves the step on every pending source. |
| RaceCombinator.RaceOfEstablishes | Promise/Promise.swift:157-161 | `race` returns a promise that has the invariant and is listened for by every pending source. |
| RaceCombinator.RegisterEachRaceFirst | Promise/Promise.swift:159 | Registration runs in input order, so the first settled source decides the fresh `race` promise, with executors run at once. |
| RaceCombinator.RaceAdoptsAtOnce | Promise/Promise.swift:157-161 | If some sources have already settled, `race` takes exactly the outcome of the first of them in input order, with executors run at once. |
| RaceCombinator.RaceAdoptsFirst | Promise/Promise.swift:157-161 | The first source to settle while the `race` promise is pending decides its state and result, value or error. |
| RaceCombinator.RaceRegisteredKept | Promise/Promise.swift:159 | Any step that leaves settled promises alone and drops no registration keeps the `race` step on every pending source. |
| RaceCombinator.RaceKeptByCreate | Promise/Promise.swift:43-47 | Creating a promise keeps the `race` invariant and keeps the `race` step on every pending source. |
| RaceCombinator.RaceKeptBySettle | Promise/Promise.swift:81-93 | Any settlement keeps the invariant and the registrations. A settlement of the `race` promise itself must adopt a source's outcome. |
| RaceCombinator.RaceKeptByRegister | Promise/Promise.swift:95-119 | A registration aimed at another promise keeps the invariant and the registrations. |
| RaceCombinator.RaceKeptByRegisterEach | Promise/Promise.swift:137-153 | The `forEach` of another combinator keeps the invariant and the registrations. |
| RaceCombinator.RaceKeptByThen | Promise/Promise.swift:121-131 | `then` and `catch` on any promise keep the invariant and the registrations. |
| RaceCombinator.RaceKeptByCombinators | Promise/Promise.swift:135-161 | An `all` or another `race` keeps the invariant and the registrations. |
| RaceCombinator.RaceKeptByConstructors | Promise/Promise.swift:163-181 | `resolve`, `reject` and `Promise(p)` of a settled `p` keep the invariant and the registrations. |
| RaceCombinator.RaceSettlesWhenSourceSettles | Promise/Promise.swift:157-161 | With the invariant and the registrations, the settlement of any pending source leaves the `race` promise settled, with the exact outcome of one of its sources. |
| RaceCombinator.RaceDueSettle | Promise/Promise.swift:81-93 | Any settlement, with the whole cascade it sets off, keeps the `race` promise due: once any source is settled, directly or through another promise's chain, the `race` promise is not Pending. Sources whose `race` step is still to run higher in the cascade are excused. |
| RaceCombinator.RaceDueFire | Promise/Promise.swift:26-37 | Running a chain keeps the `race` promise due. A source stays excused only while its `race` step is still among the registrations to run. |
| RaceCombinator.RaceDueFireOne | Promise/Promise.swift:99-109 | One registration run keeps the `race` promise due. |
| RaceCombinator.FirstSettled | Promise/Promise.swift:159 | When some source is settled, there is a first settled source in input order, with every earlier source pending. |
| RaceCombinator.RaceOfDue | Promise/Promise.swift:157-161 | `race` returns a promise that is due: settled at once when a source already is. |
| RaceCombinator.RaceOutcomeAfterSettle | Promise/Promise.swift:157-161 | After any settlement of any promise and its cascade, the invariant, the registrations and being due still hold. When some source is then settled, the `race` promise is settled with the outcome of a settled source. |
| RaceCombinator.RaceDueKeptByCreate | Promise/Promise.swift:43-47 | Creating a promise keeps the `race` promise due. |
| RaceCombinator.RaceDueKeptByRegister | Promise/Promise.swift:95-119 | A registration aimed at another promise keeps the `race` promise due. |
| RaceCombinator.RaceDueKeptByRegisterEach | Promise/Promise.swift:137-153 | The `forEach` of another combinator keeps the `race` promise due. |
| RaceCombinator.RaceDueKeptByOperations | Promise/Promise.swift:121-181 | `then`, `catch`, an `all`, another `race`, `resolve`, `reject` and `Promise(p)` of a settled `p` keep the `race` promise due. |
| RaceCombinator.RaceEmptyStaysPending | Promise/Promise.swift:157-161 | `race([])` has no source: no settlement of another promise, with its cascade, changes the `race` promise, so it stays Pending for good. |
| Scenarios.ThenDoubles | PromiseTests/PromiseTests.swift:106-119 | `resolve(1).then { $0 * 2 }` is Fulfilled with 2. |
| Scenarios.CatchSeesRejection | PromiseTests/PromiseTests.swift:121-132 | `reject(.Any).catch` is Rejected with `.Any`, and its observer is called once, with `.Any`. |
| Scenarios.Composition | PromiseTests/PromiseTests.swift:134-149 | `resolve(10).then(increment).then(doubleUp).catch(..).then(..)` carries 22 through `catch`, never calls the observer, and ends Fulfilled. |
| Scenarios.CopyOfFulfilled | PromiseTests/PromiseTests.swift:67-79 | `Promise(p)` of a promise fulfilled with 1 is Fulfilled with 1. |
| Scenarios.AllOverFresh | Promise/Promise.swift:135-155 | `all` over fresh promises puts exactly one step on each source and leaves its own promise pending with none. |
| Scenarios.AllCollectsAsTimersFire | PromiseTests/PromiseTests.swift:151-165 | Three timers fulfil in the order of their sleeps, first, second, third. `all` stays pending until the third, then is Fulfilled with the three values in input order. |
| Scenarios.AllCollectsInInputOrder | PromiseTests/PromiseTests.swift:151-165 | The same `all`, with the sources fulfilled in the order third, first, second. This order is chosen on purpose, to show values that arrive out of order still come out in input order. |
| Scenarios.AllRejectsWithSourceError | PromiseTests/PromiseTests.swift:167-183 | One source fulfils, then one rejects with `e`. `all` is Rejected with `e`, and the later fulfilments leave it so. |
| Scenarios.AllThenCatchSeesSourceError | PromiseTests/PromiseTests.swift:167-183 | `all(..).then { XCTFail() }.catch { .. }` is registered first. Then one source fulfils and `p2` rejects with `e`. The rejection passes through `all` and `then` to the promise `catch` returns, which is Rejected with `e`. The observer of `catch` is called exactly once, with `e`, and the transform of `then` is never used. |
| Scenarios.ThenCatchOnAll | PromiseTests/PromiseTests.swift:172-180 | `then` and `catch` on the pending `all` promise chain two new pending promises behind it and leave the sources and the log as they were. |
| Scenarios.AllRejectionReachesCatch | Promise/Promise.swift:99-109 | A rejection of a source reaches, one registration at a time, the `all` promise, the promise of `then` (no observer) and the promise of `catch` (one observer call, with the error). |
| Scenarios.RaceOverFresh | Promise/Promise.swift:157-161 | `race` over fresh promises puts exactly one step on each source and leaves its own promise pending with none. |
| Scenarios.RaceFirstSettlementWins | PromiseTests/PromiseTests.swift:185-228 | Whichever of two sources settles first, with a value or an error, decides the `race` promise. The other source's later settlement leaves it so. |
| Scenarios.AllOverThenWorld | Promise/Promise.swift:121-155 | `all([x.then(f)])` with `x` pending leaves `x` with the `then` step, the `then` promise with the `all` step, and the `all` promise pending, wired and due. |
| Scenarios.AllOverThenOutcome | Promise/Promise.swift:99-155 | In any world wired as `all([x.then(f)])` with `x` pending, fulfilling `x` with `v` fulfils the `then` promise with `f(v)` and the `all` promise with `[f(v)]`. |
| Scenarios.AllOverThenSettles | Promise/Promise.swift:99-155 | Fulfilling `x` with `v` in `all([x.then(f)])` fulfils the `then` promise with `f(v)` and, through it, the `all` promise with `[f(v)]`. |
| Scenarios.ThenChainAfterSettle | Promise/Promise.swift:99-109 | `x.then(increment).then(doubleUp)` on a pending `x`: fulfilling `x` with 10 fulfils the second derived promise with 22, and rejecting `x` with `e` rejects it with `e`. |

## Left out

- The concurrent dispatch queue and `dispatch_async` are not modelled (Promise/Promise.swift:23, 43-47). Every executor runs at once, so there are no interleavings. The unguarded race between a registration in `then` and a settlement on another thread is therefore not modelled.
- The semaphores in `init(_ promise:)`, `resolve` and `reject` are not modelled; only the settled state they wait for is kept.
  - `Semantics.CopyOf` requires a settled source, which is what the blocking wait ensures.
  - The `then`/`catch` pair that `init(_ promise:)` registers in order to wake that wait is not modelled.
- The throwing `@autoclosure` initializer is not modelled (Promise/Promise.swift:70-79). It is an executor that calls `resolve` or `reject` once, which is `Create` followed by `Settle`.
- The `assertionFailure()` branches are not behaviour.
  - In `init(_ promise:)`, the precondition of `CopyOf` and the coherence invariant exclude the branch, and the runtime leaves the new promise pending there.
  - In the private `then`, coherence excludes the branch.
- Errors are an opaque type parameter. Dynamic casting of `ErrorType` is not modelled.
- The type of the values is simplified.
  - Transforms given to `then` are total, pure Dafny functions on one value domain, `Val`. A change of element type across `then` is a change of shape within that domain.
  - An observer's only effect is an entry in the log, naming the derived promise and the error.
- The two closure chains `resolve` and `reject` are one list of registration records. Every `then` extends both at once, and only one of them ever runs.
- The `then` inside `all` and `race` creates an intermediate promise that nothing holds. The model does not allocate it, so ids count only the promises user code can see.
- XCTest expectations, `sleep` and `NSJSONSerialization` are not modelled. Wall-clock order in the tests becomes the order of the settle calls. `testInitializePromiseWithAutoclosure` is not replayed.
- AllCombinator.AllRejectsAtOnce: states only that the `all` promise takes the error of some rejected source. The exact error, that of the first rejected source in input order, is stated by `AllCombinator.AllRejectsWithFirstError`.
- AllCombinator.SettledAllRejected: states only that the `all` promise holds the error of some rejected source. Which one depends on the order in which the sources settled, and a snapshot does not record that order. `AllCombinator.AllRejectsWhenSourceRejects` states the exact error for each settlement as it happens.
- Cascade.DeliveredThen: requires that no other pending registration aims at the derived promise. This holds for every promise `then` returns, because only the registration that created it aims at it: `ThenChain.ThenOnEstablishes` and the `ThenChain.ThenKeptBy*` lemmas keep `ThenWired`, and `ThenChain.ThenWiredIsSole` derives the precondition from it.
- RaceCombinator.RaceAdoptsFirst: requires that no pending promise outside the race has a listener aimed into the race's sources or its promise. Without this, a settlement could reach a source and the `race` promise through some other path first.

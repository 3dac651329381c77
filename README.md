# Rax hook state engine, modelled in Dafny

This project models the hook engine of Rax (`packages/rax/src/hooks.js`): the
per-instance slot table that `useState`, `useReducer`, `useRef`, `useMemo`,
`useCallback`, `useEffect`, `useLayoutEffect` and `useImperativeHandle` fill
in call order, the dependency comparator `areInputsEqual`, the routing of
`setState`/`dispatch` updates by owner (render-phase update versus a later
`update()`), and the `create`/`destory` closures of effect hooks with their
mutable `current` fields, scheduler deferral and save/restore of
`Host.isRendering`.

Layout:

- `values.dfy` (`JsValues`): JavaScript values as the engine sees them. NaN,
  +0, -0 and the infinities are explicit. Other numbers are abstract. Objects
  (`JsObject`, with only `current` modelled) and functions compare by identity.
  `StrictEquals` is `===`, `SameValue` is ECMA-262 SameValue (section 7.2.10,
  2019 edition), and `Truthy` is ToBoolean.
- `dependencies.dfy` (`Dependencies`): `areInputsEqual` as a loop
  (`AreInputsEqual`), proved against the recursive definition `InputsEqual`.
- `runtime.dfy` (`HookRuntime`): the `Host` globals, the `Instance` class (slot
  map, cursor, `isRenderScheduled`, the three handler lists, an `update()`
  counter), the `Hook` record variants, and the `CreateFn`/`DestroyFn` closure
  objects. `Instance.Valid` says every effect slot registered exactly one entry
  in each handler list, in allocation order.
- `effects.dfy` (`EffectClosures`): the bodies of `create`, `destory`, the
  scheduled `() => create(true)` / `() => destory(true)` callbacks and the
  update handler.
- `hooks.dfy` (`Hooks`): the hooks themselves, taking the `Host` as an explicit
  parameter.
- `scenario.dfy` (`Scenario`): one instance driven through mount, a second
  render and unmount. The pipeline's steps are written out by hand.

User functions (lazy initialisers, updater functions, reducers, effect bodies,
cleanups, function refs, memo factories) are uninterpreted. `Host.invoke(f, args)`
is the value `f(...args)` returns. Their side effects are not modelled.
`Host.trace` (ghost) records each effect or cleanup body that ran, together
with the `Host.isRendering` value it observed.

Behaviours of the code worth noting, each stated by the model:

- `areInputsEqual` never compares lengths. Extra entries of the previous list
  are ignored (`ExtraPreviousEntriesIgnored`), and a missing previous entry
  reads as `undefined`.
- A null `inputs` makes `areInputsEqual` throw a TypeError, and so does a null
  previous list when `inputs` is non-empty. So `useMemo`/`useCallback` without
  a dependency list fail on their second call.
- `useMemo` never stores new inputs. Every later render compares against the
  first render's inputs (`UseMemo`, `MemoKeyIsFirstInputs`).
- `useReducer` returns without folding on its first call. The queue is empty
  then anyway.
- `setState` short-circuits on `===`, not on SameValue. Setting NaN over NaN
  always counts as a change, and setting -0 over +0 never does
  (`StrictEqualsVersusSameValue`).
- The update handler's `prevInputs == null` test never fires. Inputs are
  defaulted to `[effect]` before they are stored.

## Model

| member | source | states |
|---|---|---|
| `Hooks.CurrentRenderingInstance` | packages/rax/src/hooks.js:5-12 | Succeeds exactly when `Host.component._instance` is set, and returns that instance. A missing `Host.component` is a TypeError; a missing instance is the invalid-context error. |
| `JsValues.OneOverZeroSeparatesZeros` | packages/rax/src/hooks.js:19 | Two zeros are always `===`, but `1 / a === 1 / b` holds exactly when they are the same zero, so the division tells +0 from -0. |
| `JsValues.SameValueIsIdentity` | packages/rax/src/hooks.js:18-21 | SameValue, as ECMA-262 states it, is identity of the abstract value. |
| `JsValues.StrictEqualsVersusSameValue` | packages/rax/src/hooks.js:47 | `===` and SameValue disagree exactly on NaN/NaN and on a +0/-0 pair. |
| `Dependencies.ElementUnchangedIsSameValue` | packages/rax/src/hooks.js:18-21 | The per-position test, written with the source's operators, holds iff the two values are SameValue. |
| `Dependencies.AreInputsEqual` | packages/rax/src/hooks.js:14-27 | The loop returns `InputsEqual` of the two lists. It raises a TypeError for null `inputs`, and for a null previous list when `inputs` is non-empty; an empty `inputs` against null is equal. |
| `Dependencies.InputsEqualIff` | packages/rax/src/hooks.js:14-27 | Equal iff every index below `|inputs|` holds SameValue entries (both directions). |
| `Dependencies.InputsEqualReadsOnlyPrefix` | packages/rax/src/hooks.js:15-17 | Previous lists that agree on the first `|inputs|` positions give the same answer. |
| `Dependencies.ExtraPreviousEntriesIgnored` | packages/rax/src/hooks.js:15 | A previous list with extra trailing entries still compares equal; lengths are not compared. |
| `Dependencies.InputsEqualReflexive` | packages/rax/src/hooks.js:14-27 | Every list equals itself, NaN entries included. |
| `Dependencies.ChangedPositionDetected` | packages/rax/src/hooks.js:18-24 | A change at any position below `|inputs|` makes the lists unequal. |
| `Dependencies.ComparatorExamples` | packages/rax/src/hooks.js:18-21 | `[NaN]` equals `[NaN]`, `[0]` differs from `[-0]`, `[undefined]` equals `[]`, `[]` equals anything. |
| `HookRuntime.Instance.NextHookId` | packages/rax/src/hooks.js:31 | `getHookId()` returns the cursor and advances it by one. |
| `HookRuntime.Instance.WriteSlot` | packages/rax/src/hooks.js:60-63 | A write of a non-effect record to a non-effect slot changes only that slot and keeps the instance consistent. |
| `HookRuntime.Instance.AddEffectSlot` | packages/rax/src/hooks.js:117-132 | A new effect record is stored, and exactly one entry is appended to each of `didMountHandlers`, `willUnmountHandlers` and `didUpdateHandlers`. |
| `HookRuntime.Instance.ShiftEffectInputs` | packages/rax/src/hooks.js:134-137 | The old `inputs` move into `prevInputs`, the new list becomes `inputs`, and the closures stay the same. |
| `HookRuntime.Instance.Update` | packages/rax/src/hooks.js:55 | `update()` is counted once per call. |
| `HookRuntime.Host.FlushPassiveEffects` | packages/rax/src/hooks.js:53 | `flushPassiveEffects()` is counted once per call. |
| `HookRuntime.PlainWriteKeepsWellFormed` | packages/rax/src/hooks.js:60-63 | Writing a state, reducer, ref or memo record outside the effect slots keeps the handler lists matching the effect slots. |
| `HookRuntime.EffectRefreshKeepsWellFormed` | packages/rax/src/hooks.js:134-138 | Re-writing an effect slot with the same closures keeps the table consistent. |
| `HookRuntime.EffectAllocKeepsWellFormed` | packages/rax/src/hooks.js:117-132 | Allocating an effect slot and pushing its three handlers keeps every effect slot registered exactly once, in order. |
| `Hooks.UseState` | packages/rax/src/hooks.js:29-67 | Outside a render, fails with no effect. The first call at a slot stores `initialState()` for a function argument, the argument otherwise. Later calls change nothing and return the stored value and the same setter. |
| `Hooks.SetState` | packages/rax/src/hooks.js:40-58 | If the next value is `===` the current one, nothing changes. If the owner is rendering, the slot is written and `isRenderScheduled` set, with no `update()`. Otherwise the slot is written, `update()` is called once, and passive effects are flushed iff nothing is rendering. |
| `Hooks.UseReducer` | packages/rax/src/hooks.js:194-235 | The first call stores `reducer(initialState, initialAction)` for a truthy action, `initialState` otherwise, with an empty queue. Later calls store the in-order fold of the queue and empty it. |
| `Hooks.Dispatch` | packages/rax/src/hooks.js:204-218 | Always appends the action to the queue, with no equality test, and routes by owner exactly as `setState` does. |
| `Hooks.ReduceConcat` | packages/rax/src/hooks.js:229-231 | Folding two batches in turn equals folding their concatenation, so actions apply in dispatch order. |
| `Hooks.ReduceFirstAction` | packages/rax/src/hooks.js:229-231 | The first queued action is applied first. |
| `Hooks.UseEffectImpl` | packages/rax/src/hooks.js:82-140 | First call: new `create`/`destory` closures, `prevInputs == inputs`, `create.current` set to the effect, one entry per handler list. Later calls: same closures, inputs shifted, `create.current` re-armed, nothing registered. Null inputs default to `[effect]`. |
| `Hooks.UseEffect` | packages/rax/src/hooks.js:74-76 | The effect hook with deferred closures. |
| `Hooks.UseLayoutEffect` | packages/rax/src/hooks.js:78-80 | The effect hook with immediate closures. |
| `Hooks.DefaultInputsTrackTheEffect` | packages/rax/src/hooks.js:86 | Without a list, the effect re-runs iff its function changed. An explicit empty list never reports a change. |
| `Hooks.HandleInputs` | packages/rax/src/hooks.js:143 | The handle's dependency list always contains `ref`. |
| `Hooks.RefChangeRebinds` | packages/rax/src/hooks.js:143 | For dependency lists of the same shape (both built from inputs of equal length, or both from `[ref, create]`), a different `ref` makes them unequal, so the handle is rebound. |
| `Hooks.SameHandleInputsKeepHandle` | packages/rax/src/hooks.js:143 | Same `ref` and equal inputs of the same length give equal dependency lists. |
| `Hooks.UseImperativeHandle` | packages/rax/src/hooks.js:142-156 | A layout effect whose body binds `create()` to `ref` and whose dependencies are `inputs ++ [ref]`, or `[ref, create]` without inputs. |
| `Hooks.UseRef` | packages/rax/src/hooks.js:158-170 | The first call creates a new object holding the initial value. Later calls return the same object, unchanged. |
| `Hooks.UseMemo` | packages/rax/src/hooks.js:176-192 | First call: stores `create()` with the inputs. Later calls: return the cache when the inputs equal the first render's inputs, recompute otherwise, raise TypeError when the comparator throws. The stored inputs never change. |
| `Hooks.UseCallback` | packages/rax/src/hooks.js:172-174 | First call: stores the callback with the inputs and returns it. Later calls: return the cached callback when the inputs equal the first render's, store and return the new callback otherwise, raise TypeError when the comparator throws. The stored inputs never change. |
| `Hooks.MemoKeyIsFirstInputs` | packages/rax/src/hooks.js:182-188 | With first inputs `[1]`, later renders with `[2]` keep reporting a change. |
| `EffectClosures.RunEffectBody` | packages/rax/src/hooks.js:145-155 | Running an imperative handle effect writes `create()` into an object ref, and returns the cleanup matching the kind of `ref`. A user effect returns its result as the cleanup. |
| `EffectClosures.RunCleanupBody` | packages/rax/src/hooks.js:147-153 | The object-ref cleanup sets `ref.current` to null. |
| `EffectClosures.RunCreate` | packages/rax/src/hooks.js:89-100 | A non-immediate call on a deferred effect only queues `create(true)`. Otherwise an armed effect runs once, observing `isRendering == true`; its cleanup goes to `destory.current`, `create.current` becomes null, and `isRendering` returns to its old value. An imperative handle on an object ref leaves `ref.current == create()`. |
| `EffectClosures.RunDestroy` | packages/rax/src/hooks.js:102-113 | The same scheme for the cleanup, which is cleared to null after it ran. |
| `EffectClosures.RunScheduled` | packages/rax/src/hooks.js:90 | A scheduled callback runs its closure immediately, without queueing anything, with the same effects as an immediate `create`/`destory`. |
| `EffectClosures.RunUpdateHandler` | packages/rax/src/hooks.js:126-132 | Does nothing when the inputs equal `prevInputs`. Otherwise a deferred effect queues destroy then create, in that order. An immediate one runs the cleanup, then the effect, whose cleanup is the one kept. An imperative handle re-run binds `ref.current` to the new `create()`; an object ref the new effect does not touch is left null by the old cleanup. |
| `Scenario.RenderComponent` | packages/rax/src/hooks.js:29-140 | A render calling `useState(0)` then `useEffect(fn, [])` allocates a state slot and an effect slot the first time, and only re-arms the effect later. |
| `Scenario.MountDeferred` | packages/rax/src/hooks.js:89-100 | A deferred `create()` followed by its scheduled callback runs the effect exactly once. |
| `Scenario.UnmountDeferred` | packages/rax/src/hooks.js:102-113 | A deferred `destory()` followed by its scheduled callback runs the cleanup exactly once. |
| `Scenario.MountRerenderUnmount` | packages/rax/src/hooks.js:82-140 | Over mount, a re-render with unchanged `[]` and unmount, the effect runs once and its cleanup once, both with `isRendering` raised, and the flag ends false. |

## Left out

- `useContext` (hooks.js, lines 69-72) is a one-line passthrough to the instance's `readContext`. `readContext` is not part of this model.
- The rendering pipeline is reduced to its interface. `Host` and `./vdom/host` are not part of this model. The restart loop that consumes `isRenderScheduled` is not part of this model either. `getHookId` is the cursor, `update()` a counter, and `flushPassiveEffects` a counter. `scheduleBeforeNextRenderCallback` is an append-only queue. Which handler lists the pipeline invokes, and when, is written out only in the scenario.
- User functions are uninterpreted and assumed to return normally. A user body that throws would leave `Host.isRendering` raised; that is not modelled. Neither is a user body that calls `setState` from inside an effect.
- Calling hooks in a different order across renders is a caller obligation. The hooks require the next slot to be free or of their own kind, so records of one kind are never read as another.
- Numbers are abstract values; no IEEE arithmetic is modelled. Dependency lists are arrays or null/undefined. Other non-array values passed as `inputs` are not modelled.
- `setState` and `dispatch` closures are not JavaScript values in this model, so they cannot appear inside a dependency list.
- RunCreate: a truthy `create.current` that is not a function (hooks.js, line 96) throws a TypeError in the source and leaves `Host.isRendering` raised; the model calls it through `invoke` and restores the flag.
- RunDestroy: the same holds for a truthy cleanup that is not a function (hooks.js, line 109), such as the Promise an `async` effect returns; the model runs it and restores the flag.
- UseReducer: a `reducer` that is not a function throws a TypeError at hooks.js, lines 201 and 230; the model applies it through `invoke`. UseMemo likewise applies a non-function `create` (line 182 and 187).
- RunEffectBody: calling a function ref with `create()` (hooks.js, line 147) is applied through the pure `invoke`, so the call itself leaves no observable trace; RunCleanupBody likewise for the `ref(null)` call of line 148 and for a user cleanup's call at line 109. Only the object-ref writes are stated.
- RunEffectBody: assigning `ref.current` when `ref` is a non-null primitive (a TypeError in strict mode) is modelled as no write.
- UseState: returns the pair `(value, setState)` rather than the slot's own array. Code that mutates the returned array, which in the source aliases the slot, is not modelled. The same holds for UseReducer, which returns `(value, dispatch)` without the queue.

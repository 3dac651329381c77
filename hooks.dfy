/**
 * The hooks of packages/rax/src/hooks.js. Each hook takes the global `Host`
 * explicitly, finds the rendering instance, takes the next slot from its
 * cursor, allocates the slot's record on the first call and reuses it on later
 * calls. Updates issued by `setState` and `dispatch` are routed by owner: a
 * render-phase update marks the instance for a restart, any other update
 * flushes passive effects (unless something is rendering) and asks the
 * instance for a new render.
 */
module Hooks {
  import opened JsValues
  import opened Dependencies
  import opened HookRuntime
  import opened EffectClosures

  /** `getCurrentRenderingInstance()` (hooks.js, lines 5-12): reading
      `Host.component._instance` fails with a TypeError when there is no
      component, and the hook fails with the "only inside a component" error
      when the component has no instance. */
  function CurrentRenderingInstance(host: Host): (r: Result<Instance>)
    reads host
    ensures r.Ok? <==> RenderingInstance(host) != null
    ensures r.Ok? ==> r.value == RenderingInstance(host)
    ensures r.Err? ==> (r.error == TypeError <==> host.component.NoComponent?)
  {
    match host.component
    case NoComponent => Err(TypeError)
    case Component(inst) => if inst == null then Err(InvalidContext) else Ok(inst as Instance)
  }

  /* ---------------------------------------------------------------- state */

  /** The value `useState` stores on its first call: `initialState()` when
      the argument is a function (lazy initializer), the argument otherwise. */
  function InitialState(invoke: (Val, seq<Val>) -> Val, initialState: Val): Val {
    if initialState.Fn? then invoke(initialState, []) else initialState
  }

  /** The value `setState(newState)` computes: `newState(current)` when the
      argument is a function, the argument otherwise. */
  function NextState(invoke: (Val, seq<Val>) -> Val, newState: Val, current: Val): Val {
    if newState.Fn? then invoke(newState, [current]) else newState
  }

  /** `useState(initialState)` (hooks.js, lines 29-67). */
  method UseState(host: Host, initialState: Val) returns (r: Result<(Val, Setter)>)
    requires Ready(host, StateKind)
    modifies Rendering(host)
    ensures RenderingInstance(host) == null ==> r == Err(CurrentRenderingInstance(host).error)
    ensures RenderingInstance(host) != null ==>
              var inst := RenderingInstance(host);
              var id := old(inst.cursor);
              && inst.Valid() && inst.cursor == id + 1 && LifecycleUnchanged(inst)
              && (id !in old(inst.hooks) ==>
                    var init := InitialState(host.invoke, initialState);
                    && inst.hooks == old(inst.hooks)[id := StateHook(init, Setter(inst, id))]
                    && r == Ok((init, Setter(inst, id))))
              && (id in old(inst.hooks) ==>
                    && inst.hooks == old(inst.hooks)
                    && r == Ok((old(inst.hooks)[id].value, old(inst.hooks)[id].setter))
                    && old(inst.hooks)[id].setter == Setter(inst, id))
  {
    var cur := CurrentRenderingInstance(host);
    if cur.Err? {
      return Err(cur.error);
    }
    var inst := cur.value;
    var hookId := inst.NextHookId();
    if hookId !in inst.hooks {
      var init := InitialState(host.invoke, initialState);
      inst.WriteSlot(hookId, StateHook(init, Setter(inst, hookId)));
    }
    var hook := inst.hooks[hookId];
    return Ok((hook.value, hook.setter));
  }

  /** The slot of `setter` holds its state record. */
  ghost predicate LiveSetter(setter: Setter)
    reads setter.owner
  {
    && setter.owner.Valid()
    && setter.slot in setter.owner.hooks
    && setter.owner.hooks[setter.slot].StateHook?
  }

  /** The `setState` closure (hooks.js, lines 40-58). When the next value is
      `===` the current one nothing happens. Otherwise, when the owner is the
      instance rendering now, the value is written and the owner is marked for
      a restart; when it is not, passive effects are flushed unless something
      is rendering, the value is written and `update()` is called once. */
  method SetState(host: Host, setter: Setter, newState: Val)
    requires LiveSetter(setter)
    modifies host`flushCount, setter.owner`hooks, setter.owner`isRenderScheduled, setter.owner`updateCalls
    ensures LiveSetter(setter)
    ensures var inst := setter.owner;
            var current := old(inst.hooks[setter.slot].value);
            var next := NextState(host.invoke, newState, current);
            if StrictEquals(next, current) then
              && inst.hooks == old(inst.hooks)
              && inst.isRenderScheduled == old(inst.isRenderScheduled)
              && inst.updateCalls == old(inst.updateCalls)
              && host.flushCount == old(host.flushCount)
            else
              && inst.hooks == old(inst.hooks)[setter.slot := StateHook(next, setter)]
              && if RenderingInstance(host) == inst then
                   && inst.isRenderScheduled
                   && inst.updateCalls == old(inst.updateCalls)
                   && host.flushCount == old(host.flushCount)
                 else
                   && inst.isRenderScheduled == old(inst.isRenderScheduled)
                   && inst.updateCalls == old(inst.updateCalls) + 1
                   && host.flushCount == old(host.flushCount) + (if host.isRendering then 0 else 1)
  {
    var inst := setter.owner;
    var current := inst.hooks[setter.slot].value;
    var next := NextState(host.invoke, newState, current);
    if !StrictEquals(next, current) {
      if host.component.Component? && host.component.instance == inst {
        inst.WriteSlot(setter.slot, StateHook(next, inst.hooks[setter.slot].setter));
        inst.isRenderScheduled := true;
      } else {
        if !host.isRendering {
          host.FlushPassiveEffects();
        }
        inst.WriteSlot(setter.slot, StateHook(next, inst.hooks[setter.slot].setter));
        inst.Update();
      }
    }
  }

  /* -------------------------------------------------------------- reducer */

  /** The value `useReducer` stores on its first call:
      `reducer(initialState, initialAction)` when `initialAction` is truthy,
      `initialState` otherwise. */
  function InitialReducerState(invoke: (Val, seq<Val>) -> Val, reducer: Val,
                               initialState: Val, initialAction: Val): Val {
    if Truthy(initialAction) then invoke(reducer, [initialState, initialAction]) else initialState
  }

  /** The left fold of `reducer` over `actions` from `start`, in order. */
  function Reduce(invoke: (Val, seq<Val>) -> Val, reducer: Val, start: Val, actions: seq<Val>): Val
    decreases |actions|
  {
    if actions == [] then start
    else invoke(reducer, [Reduce(invoke, reducer, start, actions[..|actions| - 1]), actions[|actions| - 1]])
  }

  /** Folding two batches of actions one after the other is folding them
      together in dispatch order. */
  lemma {:induction false} ReduceConcat(invoke: (Val, seq<Val>) -> Val, reducer: Val, start: Val,
                                        first: seq<Val>, second: seq<Val>)
    ensures Reduce(invoke, reducer, start, first + second)
         == Reduce(invoke, reducer, Reduce(invoke, reducer, start, first), second)
    decreases |second|
  {
    if second == [] {
      assert first + second == first;
    } else {
      var both := first + second;
      assert both[..|both| - 1] == first + second[..|second| - 1];
      assert both[|both| - 1] == second[|second| - 1];
      ReduceConcat(invoke, reducer, start, first, second[..|second| - 1]);
    }
  }

  /** The first action of the queue is applied first. */
  lemma {:induction false} ReduceFirstAction(invoke: (Val, seq<Val>) -> Val, reducer: Val, start: Val,
                                             action: Val, rest: seq<Val>)
    ensures Reduce(invoke, reducer, start, [action] + rest)
         == Reduce(invoke, reducer, invoke(reducer, [start, action]), rest)
  {
    ReduceConcat(invoke, reducer, start, [action], rest);
    assert [action][..0] == [];
  }

  /** `useReducer(reducer, initialState, initialAction)` (hooks.js, lines
      194-235). The first call stores the initial state with an empty queue
      and does not fold; every later call folds the queued actions into the
      stored value and empties the queue. */
  method UseReducer(host: Host, reducer: Val, initialState: Val, initialAction: Val)
    returns (r: Result<(Val, Dispatcher)>)
    requires Ready(host, ReducerKind)
    modifies Rendering(host)
    ensures RenderingInstance(host) == null ==> r == Err(CurrentRenderingInstance(host).error)
    ensures RenderingInstance(host) != null ==>
              var inst := RenderingInstance(host);
              var id := old(inst.cursor);
              && inst.Valid() && inst.cursor == id + 1 && LifecycleUnchanged(inst)
              && (id !in old(inst.hooks) ==>
                    var init := InitialReducerState(host.invoke, reducer, initialState, initialAction);
                    && inst.hooks == old(inst.hooks)[id := ReducerHook(init, Dispatcher(inst, id), [])]
                    && r == Ok((init, Dispatcher(inst, id))))
              && (id in old(inst.hooks) ==>
                    var h := old(inst.hooks)[id];
                    var next := Reduce(host.invoke, reducer, h.value, h.queue);
                    && inst.hooks == old(inst.hooks)[id := ReducerHook(next, h.dispatch, [])]
                    && r == Ok((next, Dispatcher(inst, id))))
  {
    var cur := CurrentRenderingInstance(host);
    if cur.Err? {
      return Err(cur.error);
    }
    var inst := cur.value;
    var hookId := inst.NextHookId();
    if hookId !in inst.hooks {
      var init := InitialReducerState(host.invoke, reducer, initialState, initialAction);
      inst.WriteSlot(hookId, ReducerHook(init, Dispatcher(inst, hookId), []));
      return Ok((init, Dispatcher(inst, hookId)));
    }
    var hook := inst.hooks[hookId];
    var queue := hook.queue;
    var next := hook.value;
    var i := 0;
    while i < |queue|
      invariant 0 <= i <= |queue|
      invariant next == Reduce(host.invoke, reducer, hook.value, queue[..i])
    {
      assert queue[..i + 1][..i] == queue[..i];
      next := host.invoke(reducer, [next, queue[i]]);
      i := i + 1;
    }
    assert queue[..i] == queue;
    inst.WriteSlot(hookId, ReducerHook(next, hook.dispatch, []));
    return Ok((next, hook.dispatch));
  }

  /** The slot of `dispatch` holds its reducer record. */
  ghost predicate LiveDispatcher(dispatch: Dispatcher)
    reads dispatch.owner
  {
    && dispatch.owner.Valid()
    && dispatch.slot in dispatch.owner.hooks
    && dispatch.owner.hooks[dispatch.slot].ReducerHook?
  }

  /** The `dispatch` closure (hooks.js, lines 204-218): always appends the
      action to the queue, with no equality test, and routes by owner as
      `setState` does. The stored value is left to the next `useReducer`. */
  method Dispatch(host: Host, dispatch: Dispatcher, action: Val)
    requires LiveDispatcher(dispatch)
    modifies host`flushCount, dispatch.owner`hooks, dispatch.owner`isRenderScheduled, dispatch.owner`updateCalls
    ensures LiveDispatcher(dispatch)
    ensures var inst := dispatch.owner;
            var h := old(inst.hooks[dispatch.slot]);
            && inst.hooks == old(inst.hooks)[dispatch.slot := ReducerHook(h.value, h.dispatch, h.queue + [action])]
            && if RenderingInstance(host) == inst then
                 && inst.isRenderScheduled
                 && inst.updateCalls == old(inst.updateCalls)
                 && host.flushCount == old(host.flushCount)
               else
                 && inst.isRenderScheduled == old(inst.isRenderScheduled)
                 && inst.updateCalls == old(inst.updateCalls) + 1
                 && host.flushCount == old(host.flushCount) + (if host.isRendering then 0 else 1)
  {
    var inst := dispatch.owner;
    var hook := inst.hooks[dispatch.slot];
    if host.component.Component? && host.component.instance == inst {
      inst.WriteSlot(dispatch.slot, ReducerHook(hook.value, hook.dispatch, hook.queue + [action]));
      inst.isRenderScheduled := true;
    } else {
      if !host.isRendering {
        host.FlushPassiveEffects();
      }
      inst.WriteSlot(dispatch.slot, ReducerHook(hook.value, hook.dispatch, hook.queue + [action]));
      inst.Update();
    }
  }

  /* -------------------------------------------------------------- effects */

  /** `inputs != null ? inputs : [effect]`: without a dependency list the
      effect function itself is the only dependency. */
  function EffectInputs(effect: Effect, inputs: Deps): seq<Val>
    requires effect.UserEffect? || inputs.Some?
  {
    if inputs.Some? then inputs.value else [effect.f]
  }

  /** The `create` closure of an existing effect slot at the cursor, which a
      later call re-arms. */
  function CursorCreate(host: Host): set<object>
    reads host, Rendering(host)
  {
    var inst := RenderingInstance(host);
    if inst != null && inst.cursor in inst.hooks && inst.hooks[inst.cursor].EffectHook?
    then {inst.hooks[inst.cursor].create} else {}
  }

  /** The state an effect hook call at slot `id` leaves behind. On the first
      call: a record holding new `create`/`destory` closures whose previous
      and current inputs are both `inputs`, `create.current` set to the effect,
      and one entry appended to each handler list. On a later call: the same
      closures, the old inputs shifted into `prevInputs`, `create.current`
      re-armed with the new effect, and no handler registered. */
  twostate predicate EffectHookCalled(inst: Instance, id: nat, effect: Effect, inputs: seq<Val>, deferred: bool)
    reads inst, if id in inst.hooks && inst.hooks[id].EffectHook?
                then {inst.hooks[id].create, inst.hooks[id].destroy} else {}
  {
    && inst.Valid() && inst.cursor == id + 1
    && inst.isRenderScheduled == old(inst.isRenderScheduled)
    && inst.updateCalls == old(inst.updateCalls)
    && id in inst.hooks && inst.hooks[id].EffectHook?
    && var h := inst.hooks[id];
       && h.create.current == effect
       && (id !in old(inst.hooks) ==>
             && inst.hooks == old(inst.hooks)[id := EffectHook(h.create, h.destroy, inputs, inputs)]
             && h.create.deferred == deferred
             && h.destroy.current == UserCleanup(Undefined)
             && inst.didMountHandlers == old(inst.didMountHandlers) + [MountHandler(h.create)]
             && inst.willUnmountHandlers == old(inst.willUnmountHandlers) + [UnmountHandler(h.destroy)]
             && inst.didUpdateHandlers == old(inst.didUpdateHandlers) + [UpdateHandler(inst, id)])
       && (id in old(inst.hooks) ==>
             && old(inst.hooks[id]).EffectHook?
             && inst.hooks == old(inst.hooks)[id := EffectHook(h.create, h.destroy, old(inst.hooks[id]).inputs, inputs)]
             && h.create == old(inst.hooks[id]).create
             && h.destroy == old(inst.hooks[id]).destroy
             && h.destroy.current == old(h.destroy.current)
             && inst.didMountHandlers == old(inst.didMountHandlers)
             && inst.willUnmountHandlers == old(inst.willUnmountHandlers)
             && inst.didUpdateHandlers == old(inst.didUpdateHandlers))
  }

  /** `useEffectImpl(effect, inputs, defered)` (hooks.js, lines 82-140). */
  method UseEffectImpl(host: Host, effect: Effect, inputs: Deps, deferred: bool) returns (r: Result<()>)
    requires effect.UserEffect? || (effect.HandleEffect? && inputs.Some?)
    requires Ready(host, EffectKind)
    modifies Rendering(host), CursorCreate(host)
    ensures RenderingInstance(host) == null ==> r == Err(CurrentRenderingInstance(host).error)
    ensures RenderingInstance(host) != null ==>
              var inst := RenderingInstance(host);
              var id := old(inst.cursor);
              && r.Ok?
              && EffectHookCalled(inst, id, effect, EffectInputs(effect, inputs), deferred)
              && (id !in old(inst.hooks) ==> fresh(inst.hooks[id].create) && fresh(inst.hooks[id].destroy))
  {
    var cur := CurrentRenderingInstance(host);
    if cur.Err? {
      return Err(cur.error);
    }
    var inst := cur.value;
    var hookId := inst.NextHookId();
    var deps := EffectInputs(effect, inputs);
    if hookId !in inst.hooks {
      var destroy := new DestroyFn(deferred);
      var create := new CreateFn(destroy, effect);
      inst.AddEffectSlot(hookId, create, destroy, deps);
    } else {
      var hook := inst.hooks[hookId];
      inst.ShiftEffectInputs(hookId, deps);
      hook.create.current := effect;
    }
    return Ok(());
  }

  /** `useEffect(effect, inputs)` (hooks.js, lines 74-76): a passive effect,
      run through the scheduler. */
  method UseEffect(host: Host, effect: Val, inputs: Deps) returns (r: Result<()>)
    requires Ready(host, EffectKind)
    modifies Rendering(host), CursorCreate(host)
    ensures RenderingInstance(host) == null ==> r == Err(CurrentRenderingInstance(host).error)
    ensures RenderingInstance(host) != null ==>
              && r.Ok?
              && EffectHookCalled(RenderingInstance(host), old(RenderingInstance(host).cursor),
                                  UserEffect(effect), EffectInputs(UserEffect(effect), inputs), true)
              && var inst, id := RenderingInstance(host), old(RenderingInstance(host).cursor);
                 id !in old(inst.hooks) ==> fresh(inst.hooks[id].create) && fresh(inst.hooks[id].destroy)
  {
    r := UseEffectImpl(host, UserEffect(effect), inputs, true);
  }

  /** `useLayoutEffect(effect, inputs)` (hooks.js, lines 78-80): an effect run
      synchronously at commit. */
  method UseLayoutEffect(host: Host, effect: Val, inputs: Deps) returns (r: Result<()>)
    requires Ready(host, EffectKind)
    modifies Rendering(host), CursorCreate(host)
    ensures RenderingInstance(host) == null ==> r == Err(CurrentRenderingInstance(host).error)
    ensures RenderingInstance(host) != null ==>
              && r.Ok?
              && EffectHookCalled(RenderingInstance(host), old(RenderingInstance(host).cursor),
                                  UserEffect(effect), EffectInputs(UserEffect(effect), inputs), false)
              && var inst, id := RenderingInstance(host), old(RenderingInstance(host).cursor);
                 id !in old(inst.hooks) ==> fresh(inst.hooks[id].create) && fresh(inst.hooks[id].destroy)
  {
    r := UseEffectImpl(host, UserEffect(effect), inputs, false);
  }

  /** Without a dependency list an effect depends on its own function, so a
      new function on every render re-runs it every render, while an empty
      list never reports a change. */
  lemma {:induction false} DefaultInputsTrackTheEffect(f: Val, g: Val, prev: seq<Val>)
    ensures InputsEqual(EffectInputs(UserEffect(g), None), EffectInputs(UserEffect(f), None)) <==> f == g
    ensures InputsEqual(EffectInputs(UserEffect(g), Some([])), prev)
  {
    InputsEqualIff([g], [f]);
    SameValueIsIdentity(g, f);
  }

  /* ------------------------------------------------------ imperative handle */

  /** The dependency list of `useImperativeHandle` (hooks.js, line 143):
      `inputs.concat([ref])`, or `[ref, create]` without inputs. */
  function HandleInputs(ref: Val, create: Val, inputs: Deps): (deps: seq<Val>)
    ensures ref in deps
  {
    if inputs.Some? then inputs.value + [ref] else [ref, create]
  }

  /** For dependency lists of the same shape (inputs of equal length on both
      renders, or none on either), a different ref re-binds the handle. */
  lemma {:induction false} RefChangeRebinds(ref: Val, ref': Val, create: Val, create': Val,
                                            inputs: Deps, inputs': Deps)
    requires ref != ref'
    requires inputs.Some? <==> inputs'.Some?
    requires inputs.Some? ==> |inputs.value| == |inputs'.value|
    ensures !InputsEqual(HandleInputs(ref', create', inputs'), HandleInputs(ref, create, inputs))
  {
    var now, before := HandleInputs(ref', create', inputs'), HandleInputs(ref, create, inputs);
    var i := if inputs.Some? then |inputs.value| else 0;
    assert now[i] == ref' && At(before, i) == ref;
    ChangedPositionDetected(now, before, i);
  }

  /** With the same ref, same factory and equal inputs the handle is kept. */
  lemma {:induction false} SameHandleInputsKeepHandle(ref: Val, create: Val, inputs: seq<Val>, inputs': seq<Val>)
    requires InputsEqual(inputs', inputs) && |inputs'| == |inputs|
    ensures InputsEqual(HandleInputs(ref, create, Some(inputs')), HandleInputs(ref, create, Some(inputs)))
  {
    var now, before := inputs' + [ref], inputs + [ref];
    InputsEqualIff(inputs', inputs);
    InputsEqualIff(now, before);
    forall i | 0 <= i < |now|
      ensures SameValue(now[i], At(before, i))
    {
      if i < |inputs'| {
        assert now[i] == inputs'[i] && At(before, i) == At(inputs, i);
      }
    }
  }

  /** `useImperativeHandle(ref, create, inputs)` (hooks.js, lines 142-156): a
      layout effect whose body binds `create()` to the ref and whose cleanup
      unbinds it. */
  method UseImperativeHandle(host: Host, ref: Val, create: Val, inputs: Deps) returns (r: Result<()>)
    requires Ready(host, EffectKind)
    modifies Rendering(host), CursorCreate(host)
    ensures RenderingInstance(host) == null ==> r == Err(CurrentRenderingInstance(host).error)
    ensures RenderingInstance(host) != null ==>
              && r.Ok?
              && EffectHookCalled(RenderingInstance(host), old(RenderingInstance(host).cursor),
                                  HandleEffect(ref, create), HandleInputs(ref, create, inputs), false)
              && var inst, id := RenderingInstance(host), old(RenderingInstance(host).cursor);
                 id !in old(inst.hooks) ==> fresh(inst.hooks[id].create) && fresh(inst.hooks[id].destroy)
  {
    var nextInputs := HandleInputs(ref, create, inputs);
    r := UseEffectImpl(host, HandleEffect(ref, create), Some(nextInputs), false);
  }

  /* ------------------------------------------------------------------ ref */

  /** `useRef(initialValue)` (hooks.js, lines 158-170): one object per slot,
      created on the first call and returned unchanged afterwards. */
  method UseRef(host: Host, initialValue: Val) returns (r: Result<JsObject>)
    requires Ready(host, RefKind)
    modifies Rendering(host)
    ensures RenderingInstance(host) == null ==> r == Err(CurrentRenderingInstance(host).error)
    ensures RenderingInstance(host) != null ==>
              var inst := RenderingInstance(host);
              var id := old(inst.cursor);
              && inst.Valid() && inst.cursor == id + 1 && LifecycleUnchanged(inst)
              && r.Ok?
              && (id !in old(inst.hooks) ==>
                    && fresh(r.value) && r.value.current == initialValue
                    && inst.hooks == old(inst.hooks)[id := RefHook(r.value)])
              && (id in old(inst.hooks) ==>
                    && r.value == old(inst.hooks)[id].ref
                    && r.value.current == old(r.value.current)
                    && inst.hooks == old(inst.hooks))
  {
    var cur := CurrentRenderingInstance(host);
    if cur.Err? {
      return Err(cur.error);
    }
    var inst := cur.value;
    var hookId := inst.NextHookId();
    if hookId !in inst.hooks {
      var cell := new JsObject(initialValue);
      inst.WriteSlot(hookId, RefHook(cell));
    }
    return Ok(inst.hooks[hookId].ref);
  }

  /* ----------------------------------------------------------------- memo */

  /** The factory of a memo: the user's `create`, or the closure
      `() => callback` that `useCallback` passes. */
  datatype Factory = UserFactory(f: Val) | ReturnCallback(callback: Val)

  function Produce(invoke: (Val, seq<Val>) -> Val, create: Factory): Val {
    match create
    case UserFactory(f) => invoke(f, [])
    case ReturnCallback(callback) => callback
  }

  /** `areInputsEqual(inputs, prevInputs)` throws. */
  predicate DepsThrow(inputs: Deps, prev: Deps) {
    inputs.None? || (prev.None? && inputs.value != [])
  }

  /** `areInputsEqual(inputs, prevInputs)` returns true. */
  predicate DepsUnchanged(inputs: Deps, prev: Deps) {
    && inputs.Some?
    && (prev.None? ==> inputs.value == [])
    && (prev.Some? ==> InputsEqual(inputs.value, prev.value))
  }

  /** `useMemo(create, inputs)` (hooks.js, lines 176-192). The inputs stored
      on the first call are never replaced: every later call compares against
      the first render's inputs. */
  method UseMemo(host: Host, create: Factory, inputs: Deps) returns (r: Result<Val>)
    requires Ready(host, MemoKind)
    modifies Rendering(host)
    ensures RenderingInstance(host) == null ==> r == Err(CurrentRenderingInstance(host).error)
    ensures RenderingInstance(host) != null ==>
              var inst := RenderingInstance(host);
              var id := old(inst.cursor);
              && inst.Valid() && inst.cursor == id + 1 && LifecycleUnchanged(inst)
              && id in inst.hooks && inst.hooks[id].MemoHook?
              && inst.hooks[id].deps == (if id in old(inst.hooks) then old(inst.hooks)[id].deps else inputs)
              && (id !in old(inst.hooks) ==>
                    && inst.hooks == old(inst.hooks)[id := MemoHook(Produce(host.invoke, create), inputs)]
                    && r == Ok(Produce(host.invoke, create)))
              && (id in old(inst.hooks) ==>
                    var h := old(inst.hooks)[id];
                    && (DepsThrow(inputs, h.deps) ==> r == Err(TypeError) && inst.hooks == old(inst.hooks))
                    && (DepsUnchanged(inputs, h.deps) ==> r == Ok(h.value) && inst.hooks == old(inst.hooks))
                    && (!DepsThrow(inputs, h.deps) && !DepsUnchanged(inputs, h.deps) ==>
                          && inst.hooks == old(inst.hooks)[id := MemoHook(Produce(host.invoke, create), h.deps)]
                          && r == Ok(Produce(host.invoke, create))))
  {
    var cur := CurrentRenderingInstance(host);
    if cur.Err? {
      return Err(cur.error);
    }
    var inst := cur.value;
    var hookId := inst.NextHookId();
    if hookId !in inst.hooks {
      inst.WriteSlot(hookId, MemoHook(Produce(host.invoke, create), inputs));
    } else {
      var hook := inst.hooks[hookId];
      var same := AreInputsEqual(inputs, hook.deps);
      if same.Err? {
        return Err(same.error);
      }
      if !same.value {
        inst.WriteSlot(hookId, MemoHook(Produce(host.invoke, create), hook.deps));
      }
    }
    return Ok(inst.hooks[hookId].value);
  }

  /** `useCallback(callback, inputs)` (hooks.js, lines 172-174): `useMemo`
      with a factory returning `callback`, so a call either returns the cached
      function or the new `callback`. */
  method UseCallback(host: Host, callback: Val, inputs: Deps) returns (r: Result<Val>)
    requires Ready(host, MemoKind)
    modifies Rendering(host)
    ensures RenderingInstance(host) == null ==> r == Err(CurrentRenderingInstance(host).error)
    ensures RenderingInstance(host) != null ==>
              var inst := RenderingInstance(host);
              var id := old(inst.cursor);
              && inst.Valid() && inst.cursor == id + 1 && LifecycleUnchanged(inst)
              && (id !in old(inst.hooks) ==>
                    && inst.hooks == old(inst.hooks)[id := MemoHook(callback, inputs)]
                    && r == Ok(callback))
              && (id in old(inst.hooks) ==>
                    var h := old(inst.hooks)[id];
                    && (DepsThrow(inputs, h.deps) ==> r == Err(TypeError) && inst.hooks == old(inst.hooks))
                    && (DepsUnchanged(inputs, h.deps) ==> r == Ok(h.value) && inst.hooks == old(inst.hooks))
                    && (!DepsThrow(inputs, h.deps) && !DepsUnchanged(inputs, h.deps) ==>
                          && inst.hooks == old(inst.hooks)[id := MemoHook(callback, h.deps)]
                          && r == Ok(callback)))
  {
    r := UseMemo(host, ReturnCallback(callback), inputs);
  }

  /** Once the inputs differ from the first render's, a memo recomputes on
      every later render even when the inputs then stay the same: render 1
      with `[1]`, then `[2]` on renders 2 and 3. */
  lemma MemoKeyIsFirstInputs()
    ensures !DepsUnchanged(Some([Finite(2)]), Some([Finite(1)]))
    ensures DepsUnchanged(Some([Finite(2)]), Some([Finite(2)]))
  {
    ChangedPositionDetected([Finite(2)], [Finite(1)], 0);
    InputsEqualReflexive([Finite(2)]);
  }
}

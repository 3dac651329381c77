/**
 * The state the hook engine works on: the global `Host` flags, the component
 * instance with its slot table and lifecycle handler lists, the hook records
 * and the `create`/`destory` closures of effect hooks, which carry a mutable
 * `current` field.
 */
module HookRuntime {
  import opened JsValues
  import opened Dependencies

  /** What `create.current` holds: null once the effect has run, a user effect
      function, or the closure that `useImperativeHandle` builds around its
      `ref` and `create` arguments. */
  datatype Effect =
    | NoEffect
    | UserEffect(f: Val)
    | HandleEffect(ref: Val, create: Val)

  /** What `destory.current` holds: whatever the user effect returned (null once
      it has run), or one of the two cleanup closures of `useImperativeHandle`,
      `() => ref(null)` and `() => { ref.current = null; }`. */
  datatype Cleanup =
    | UserCleanup(v: Val)
    | ResetFnRef(ref: Val)
    | ResetObjRef(ref: Val)

  /** The `if (current)` test of `create`. */
  predicate EffectArmed(e: Effect) {
    match e
    case NoEffect => false
    case UserEffect(f) => Truthy(f)
    case HandleEffect(_, _) => true
  }

  /** The `if (current)` test of `destory`. */
  predicate CleanupArmed(c: Cleanup) {
    match c
    case UserCleanup(v) => Truthy(v)
    case _ => true
  }

  /** The `destory` closure of one effect hook, with its `current` field. */
  class DestroyFn {
    const deferred: bool
    var current: Cleanup

    constructor (deferred: bool)
      ensures this.deferred == deferred && current == UserCleanup(Undefined)
    {
      this.deferred := deferred;
      current := UserCleanup(Undefined);
    }
  }

  /** The `create` closure of one effect hook, with its `current` field; it
      closes over its sibling `destory`. */
  class CreateFn {
    const deferred: bool
    const teardown: DestroyFn
    var current: Effect

    constructor (teardown: DestroyFn, effect: Effect)
      ensures deferred == teardown.deferred && this.teardown == teardown && current == effect
    {
      deferred := teardown.deferred;
      this.teardown := teardown;
      current := effect;
    }
  }

  /** A callback handed to `scheduleBeforeNextRenderCallback`:
      `() => create(true)` or `() => destory(true)`. */
  datatype Callback = CreateLater(c: CreateFn) | DestroyLater(d: DestroyFn)

  /** An entry of a lifecycle handler list: `create`, `destory`, or the
      update closure that re-runs the effect of one slot when its inputs
      changed. */
  datatype Handler =
    | MountHandler(c: CreateFn)
    | UnmountHandler(d: DestroyFn)
    | UpdateHandler(owner: Instance, slot: nat)

  /** The `setState` closure of a state slot; its identity is its slot. */
  datatype Setter = Setter(owner: Instance, slot: nat)

  /** The `dispatch` closure of a reducer slot. */
  datatype Dispatcher = Dispatcher(owner: Instance, slot: nat)

  datatype Kind = StateKind | ReducerKind | RefKind | MemoKind | EffectKind

  /** One record of the slot table:
      `[value, setState]`, `[value, dispatch, queue]`, `{current}`,
      `[value, inputs]` or `{create, destory, prevInputs, inputs}`. */
  datatype Hook =
    | StateHook(value: Val, setter: Setter)
    | ReducerHook(value: Val, dispatch: Dispatcher, queue: seq<Val>)
    | RefHook(ref: JsObject)
    | MemoHook(value: Val, deps: Deps)
    | EffectHook(create: CreateFn, destroy: DestroyFn, prevInputs: seq<Val>, inputs: seq<Val>)
  {
    function Kind(): Kind {
      match this
      case StateHook(_, _) => StateKind
      case ReducerHook(_, _, _) => ReducerKind
      case RefHook(_) => RefKind
      case MemoHook(_, _) => MemoKind
      case EffectHook(_, _, _, _) => EffectKind
    }
  }

  /** A user function body that ran, with the value of `Host.isRendering` it
      observed. */
  datatype Event =
    | EffectRan(effect: Effect, isRendering: bool)
    | CleanupRan(cleanup: Cleanup, isRendering: bool)

  /** A component instance as the hooks use it. */
  class Instance {
    var hooks: map<nat, Hook>
    var cursor: nat
    var isRenderScheduled: bool
    var didMountHandlers: seq<Handler>
    var didUpdateHandlers: seq<Handler>
    var willUnmountHandlers: seq<Handler>
    var updateCalls: nat
    /** The effect slots in the order they were allocated. */
    ghost var effectSlots: seq<nat>

    /** The instance's slot table and handler lists are consistent. */
    ghost predicate Valid()
      reads this
    {
      WellFormed(this, hooks, effectSlots, didMountHandlers, willUnmountHandlers, didUpdateHandlers)
    }

    constructor ()
      ensures Valid() && hooks == map[] && cursor == 0 && !isRenderScheduled
      ensures didMountHandlers == [] && didUpdateHandlers == [] && willUnmountHandlers == []
      ensures updateCalls == 0 && effectSlots == []
    {
      hooks := map[];
      cursor := 0;
      isRenderScheduled := false;
      didMountHandlers, didUpdateHandlers, willUnmountHandlers := [], [], [];
      updateCalls := 0;
      effectSlots := [];
    }

    /** The hook about to be called is of kind `k`, or its slot is still
        free: hooks are called in the same order on every render. */
    predicate Fits(k: Kind)
      reads this
    {
      cursor !in hooks || hooks[cursor].Kind() == k
    }

    /** `getHookId()`: the next position of the cursor. */
    method NextHookId() returns (id: nat)
      modifies this`cursor
      ensures id == old(cursor) && cursor == id + 1
    {
      id := cursor;
      cursor := cursor + 1;
    }

    /** `hooks[id] = h` for a record that is not an effect. */
    method WriteSlot(id: nat, h: Hook)
      requires Valid() && !h.EffectHook? && (id in hooks ==> !hooks[id].EffectHook?)
      requires h.StateHook? ==> h.setter == Setter(this, id)
      requires h.ReducerHook? ==> h.dispatch == Dispatcher(this, id)
      modifies this`hooks
      ensures Valid() && hooks == old(hooks)[id := h]
    {
      PlainWriteKeepsWellFormed(this, hooks, effectSlots, didMountHandlers, willUnmountHandlers,
                                didUpdateHandlers, id, h);
      hooks := hooks[id := h];
    }

    /** A new effect record in slot `id` and its `create`, `destory` and update
        closure pushed onto the three handler lists. */
    method AddEffectSlot(id: nat, c: CreateFn, d: DestroyFn, inputs: seq<Val>)
      requires Valid() && id !in hooks && c.teardown == d && c.deferred == d.deferred
      modifies this`hooks, this`effectSlots, this`didMountHandlers, this`willUnmountHandlers,
               this`didUpdateHandlers
      ensures Valid() && hooks == old(hooks)[id := EffectHook(c, d, inputs, inputs)]
      ensures didMountHandlers == old(didMountHandlers) + [MountHandler(c)]
      ensures willUnmountHandlers == old(willUnmountHandlers) + [UnmountHandler(d)]
      ensures didUpdateHandlers == old(didUpdateHandlers) + [UpdateHandler(this, id)]
      ensures effectSlots == old(effectSlots) + [id]
    {
      EffectAllocKeepsWellFormed(this, hooks, effectSlots, didMountHandlers, willUnmountHandlers,
                                 didUpdateHandlers, id, c, d, inputs);
      hooks := hooks[id := EffectHook(c, d, inputs, inputs)];
      didMountHandlers := didMountHandlers + [MountHandler(c)];
      willUnmountHandlers := willUnmountHandlers + [UnmountHandler(d)];
      didUpdateHandlers := didUpdateHandlers + [UpdateHandler(this, id)];
      effectSlots := effectSlots + [id];
    }

    /** `hook.inputs = inputs; hook.prevInputs = prevInputs` on an effect slot. */
    method ShiftEffectInputs(id: nat, inputs: seq<Val>)
      requires Valid() && id in hooks && hooks[id].EffectHook?
      modifies this`hooks
      ensures Valid()
      ensures hooks == old(hooks)[id := EffectHook(old(hooks[id]).create, old(hooks[id]).destroy,
                                                    old(hooks[id]).inputs, inputs)]
    {
      var h := hooks[id];
      EffectRefreshKeepsWellFormed(this, hooks, effectSlots, didMountHandlers, willUnmountHandlers,
                                   didUpdateHandlers, id, h.inputs, inputs);
      hooks := hooks[id := EffectHook(h.create, h.destroy, h.inputs, inputs)];
    }

    /** `update()`: asks the pipeline for another render; only counted. */
    method Update()
      modifies this`updateCalls
      ensures updateCalls == old(updateCalls) + 1
    {
      updateCalls := updateCalls + 1;
    }
  }

  /** Each effect slot of `hooks` registered exactly one entry in each
      handler list, in allocation order (`slots`), and nothing else is
      registered; the two closures of an effect slot belong together; every
      `setState`/`dispatch` closure belongs to its own slot of `self`. */
  ghost predicate WellFormed(self: Instance, hooks: map<nat, Hook>, slots: seq<nat>,
                             mounts: seq<Handler>, unmounts: seq<Handler>, updates: seq<Handler>)
  {
    && (forall k :: 0 <= k < |slots| ==> slots[k] in hooks && hooks[slots[k]].EffectHook?)
    && (forall id :: id in hooks && hooks[id].EffectHook? ==> id in slots)
    && (forall j, k :: 0 <= j < k < |slots| ==> slots[j] != slots[k])
    && |mounts| == |slots| && |unmounts| == |slots| && |updates| == |slots|
    && (forall k :: 0 <= k < |slots| ==>
          && mounts[k] == MountHandler(hooks[slots[k]].create)
          && unmounts[k] == UnmountHandler(hooks[slots[k]].destroy)
          && updates[k] == UpdateHandler(self, slots[k]))
    && (forall id :: id in hooks && hooks[id].EffectHook? ==>
          && hooks[id].create.teardown == hooks[id].destroy
          && hooks[id].create.deferred == hooks[id].destroy.deferred)
    && (forall id :: id in hooks && hooks[id].StateHook? ==> hooks[id].setter == Setter(self, id))
    && (forall id :: id in hooks && hooks[id].ReducerHook? ==> hooks[id].dispatch == Dispatcher(self, id))
  }

  /** Writing a state, reducer, ref or memo record into a slot that does not
      hold an effect keeps the table consistent. */
  lemma PlainWriteKeepsWellFormed(self: Instance, hooks: map<nat, Hook>, slots: seq<nat>,
                                  mounts: seq<Handler>, unmounts: seq<Handler>, updates: seq<Handler>,
                                  id: nat, h: Hook)
    requires WellFormed(self, hooks, slots, mounts, unmounts, updates)
    requires !h.EffectHook? && (id in hooks ==> !hooks[id].EffectHook?)
    requires h.StateHook? ==> h.setter == Setter(self, id)
    requires h.ReducerHook? ==> h.dispatch == Dispatcher(self, id)
    ensures WellFormed(self, hooks[id := h], slots, mounts, unmounts, updates)
  {
    forall k | 0 <= k < |slots|
      ensures slots[k] != id
    {
      assert hooks[slots[k]].EffectHook?;
    }
  }

  /** Shifting the inputs of an effect slot keeps the table consistent. */
  lemma EffectRefreshKeepsWellFormed(self: Instance, hooks: map<nat, Hook>, slots: seq<nat>,
                                     mounts: seq<Handler>, unmounts: seq<Handler>, updates: seq<Handler>,
                                     id: nat, prevInputs: seq<Val>, inputs: seq<Val>)
    requires WellFormed(self, hooks, slots, mounts, unmounts, updates)
    requires id in hooks && hooks[id].EffectHook?
    ensures WellFormed(self, hooks[id := EffectHook(hooks[id].create, hooks[id].destroy, prevInputs, inputs)],
                       slots, mounts, unmounts, updates)
  {
  }

  /** Allocating an effect slot and registering its three handlers keeps the
      table consistent. */
  lemma EffectAllocKeepsWellFormed(self: Instance, hooks: map<nat, Hook>, slots: seq<nat>,
                                   mounts: seq<Handler>, unmounts: seq<Handler>, updates: seq<Handler>,
                                   id: nat, c: CreateFn, d: DestroyFn, inputs: seq<Val>)
    requires WellFormed(self, hooks, slots, mounts, unmounts, updates)
    requires id !in hooks && c.teardown == d && c.deferred == d.deferred
    ensures WellFormed(self, hooks[id := EffectHook(c, d, inputs, inputs)], slots + [id],
                       mounts + [MountHandler(c)], unmounts + [UnmountHandler(d)],
                       updates + [UpdateHandler(self, id)])
  {
  }

  /** A call leaves the instance's lifecycle state alone. */
  twostate predicate LifecycleUnchanged(inst: Instance)
    reads inst
  {
    && inst.didMountHandlers == old(inst.didMountHandlers)
    && inst.didUpdateHandlers == old(inst.didUpdateHandlers)
    && inst.willUnmountHandlers == old(inst.willUnmountHandlers)
    && inst.effectSlots == old(inst.effectSlots)
    && inst.isRenderScheduled == old(inst.isRenderScheduled)
    && inst.updateCalls == old(inst.updateCalls)
  }

  /** `Host.component`: absent, or a component whose `_instance` may be unset. */
  datatype Component = NoComponent | Component(instance: Instance?)

  /** The rendering pipeline's global state as the hooks see it. */
  class Host {
    var component: Component
    var isRendering: bool
    /** Callbacks passed to `scheduleBeforeNextRenderCallback`, in order. */
    var scheduled: seq<Callback>
    /** Number of `flushPassiveEffects()` calls. */
    var flushCount: nat
    /** User function bodies run by effect closures, in order. */
    ghost var trace: seq<Event>
    /** What a user function returns for given arguments; user functions are
        otherwise opaque and their side effects are not modelled. */
    const invoke: (Val, seq<Val>) -> Val

    constructor (invoke: (Val, seq<Val>) -> Val)
      ensures this.invoke == invoke && component == NoComponent && !isRendering
      ensures scheduled == [] && flushCount == 0 && trace == []
    {
      this.invoke := invoke;
      component := NoComponent;
      isRendering := false;
      scheduled := [];
      flushCount := 0;
      trace := [];
    }

    /** `flushPassiveEffects()`: runs the pending passive effects; only
        counted. */
    method FlushPassiveEffects()
      modifies this`flushCount
      ensures flushCount == old(flushCount) + 1
    {
      flushCount := flushCount + 1;
    }
  }

  /** `Host.component._instance`, null when either is absent. */
  function RenderingInstance(host: Host): Instance?
    reads host
  {
    if host.component.Component? then host.component.instance else null
  }

  /** The instance currently rendering, as a frame. */
  function Rendering(host: Host): set<Instance>
    reads host
  {
    if RenderingInstance(host) == null then {} else {RenderingInstance(host)}
  }

  /** A hook of kind `k` may be called: when an instance is rendering, it is
      consistent and the next slot is free or of kind `k`. */
  ghost predicate Ready(host: Host, k: Kind)
    reads host, Rendering(host)
  {
    RenderingInstance(host) != null ==>
      RenderingInstance(host).Valid() && RenderingInstance(host).Fits(k)
  }
}

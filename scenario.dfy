/**
 * One component instance driven through mount, a second render and unmount,
 * with the pipeline's steps (setting `Host.component`, resetting the cursor,
 * invoking the handler lists and the scheduled callbacks) written out.
 */
module Scenario {
  import opened JsValues
  import opened Dependencies
  import opened HookRuntime
  import opened EffectClosures
  import opened Hooks

  /** After a render of the component below: a state slot 0 and a passive
      effect slot 1 with empty inputs, the effect registered once, and no
      component rendering. */
  ghost predicate Rendered(host: Host, inst: Instance)
    reads host, inst
  {
    && host.component == NoComponent
    && inst.Valid()
    && inst.effectSlots == [1]
    && 0 in inst.hooks && inst.hooks[0].StateHook?
    && 1 in inst.hooks && inst.hooks[1].EffectHook?
    && inst.hooks[1].inputs == [] && inst.hooks[1].prevInputs == []
    && inst.hooks[1].create.deferred
  }

  /** One render of a component that calls `useState(0)` and then
      `useEffect(fn, [])`, on a new instance or on one already rendered. */
  method RenderComponent(host: Host, inst: Instance, fn: Val)
    requires inst.Valid()
    requires (inst.hooks == map[] && inst.effectSlots == []) || Rendered(host, inst)
    modifies host`component, inst, if 1 in inst.hooks && inst.hooks[1].EffectHook? then {inst.hooks[1].create} else {}
    ensures Rendered(host, inst)
    ensures inst.hooks[1].create.current == UserEffect(fn)
    ensures old(inst.hooks) == map[] ==>
              && fresh(inst.hooks[1].create) && fresh(inst.hooks[1].destroy)
              && inst.hooks[1].destroy.current == UserCleanup(Undefined)
    ensures old(inst.hooks) != map[] ==>
              && inst.hooks[1].create == old(inst.hooks[1].create)
              && inst.hooks[1].destroy == old(inst.hooks[1].destroy)
              && inst.hooks[1].destroy.current == old(inst.hooks[1].destroy.current)
  {
    host.component := Component(inst);
    inst.cursor := 0;
    var state := UseState(host, PosZero);
    var effect := UseEffect(host, fn, Some([]));
    host.component := NoComponent;
  }

  /** The pipeline calls a deferred `create()` and the scheduler then runs
      the callback it queued. */
  method MountDeferred(host: Host, create: CreateFn)
    requires create.deferred && EffectArmed(create.current)
    modifies host, create, create.teardown, EffectWrites(create.current)
    ensures host.component == old(host.component) && host.isRendering == old(host.isRendering)
    ensures host.trace == old(host.trace) + [EffectRan(old(create.current), true)]
    ensures create.teardown.current == CleanupOf(host.invoke, old(create.current))
  {
    RunCreate(host, create, false);
    RunScheduled(host, host.scheduled[|host.scheduled| - 1]);
  }

  /** The pipeline calls a deferred `destory()` and the scheduler then runs
      the callback it queued. */
  method UnmountDeferred(host: Host, destroy: DestroyFn)
    requires destroy.deferred && CleanupArmed(destroy.current)
    modifies host, destroy, CleanupWrites(destroy.current)
    ensures host.component == old(host.component) && host.isRendering == old(host.isRendering)
    ensures host.trace == old(host.trace) + [CleanupRan(old(destroy.current), true)]
  {
    RunDestroy(host, destroy, false);
    RunScheduled(host, host.scheduled[|host.scheduled| - 1]);
  }

  /** The component's effect body runs once after mount, does not run again
      on a second render with the same (empty) inputs, and its cleanup runs
      once at unmount; both run with `Host.isRendering` raised, and the flag
      is false again afterwards. */
  method MountRerenderUnmount(invoke: (Val, seq<Val>) -> Val, fn: Val) returns (host: Host)
    requires Truthy(fn) && Truthy(invoke(fn, []))
    ensures host.trace == [EffectRan(UserEffect(fn), true), CleanupRan(UserCleanup(invoke(fn, [])), true)]
    ensures !host.isRendering
  {
    host := new Host(invoke);
    var inst := new Instance();

    RenderComponent(host, inst, fn);
    var create, destroy := inst.hooks[1].create, inst.hooks[1].destroy;

    // Mount: the pipeline calls the registered `create`.
    assert inst.didMountHandlers[0] == MountHandler(create);
    MountDeferred(host, create);

    // A second render with the same inputs; the update handler does nothing.
    RenderComponent(host, inst, fn);
    assert inst.didUpdateHandlers[0] == UpdateHandler(inst, 1);
    RunUpdateHandler(host, inst, 1);

    // Unmount: the pipeline calls the registered `destory`.
    assert inst.willUnmountHandlers[0] == UnmountHandler(destroy);
    UnmountDeferred(host, destroy);
  }
}

/**
 * The closures an effect hook builds (hooks.js, lines 89-132): `create` and
 * `destory`, which either defer themselves to the scheduler or run the
 * current effect or cleanup once with `Host.isRendering` raised, and the
 * update handler that tears down and re-creates the effect when its inputs
 * changed.
 */
module EffectClosures {
  import opened JsValues
  import opened Dependencies
  import opened HookRuntime

  /** The objects running an effect body may write: the object ref of an
      imperative handle. */
  function EffectWrites(e: Effect): set<object> {
    if e.HandleEffect? && e.ref.Obj? then {e.ref.o} else {}
  }

  /** The objects running a cleanup may write. */
  function CleanupWrites(c: Cleanup): set<object> {
    if c.ResetObjRef? && c.ref.Obj? then {c.ref.o} else {}
  }

  /** What running an armed effect returns, to be stored in `destory.current`:
      the user effect's return value, or for an imperative handle (hooks.js,
      lines 146-154) the cleanup matching the kind of `ref`, and `undefined`
      when `ref` is null or undefined. */
  function CleanupOf(invoke: (Val, seq<Val>) -> Val, e: Effect): Cleanup {
    match e
    case NoEffect => UserCleanup(Undefined)
    case UserEffect(f) => UserCleanup(invoke(f, []))
    case HandleEffect(ref, create) =>
      if ref.Fn? then ResetFnRef(ref)
      else if !IsNullish(ref) then ResetObjRef(ref)
      else UserCleanup(Undefined)
  }

  /** Calls the effect function `current()`. */
  method RunEffectBody(host: Host, e: Effect) returns (cleanup: Cleanup)
    requires EffectArmed(e)
    modifies EffectWrites(e)
    ensures cleanup == CleanupOf(host.invoke, e)
    ensures e.HandleEffect? && e.ref.Obj? ==> e.ref.o.current == host.invoke(e.create, [])
  {
    match e {
      case UserEffect(f) =>
        cleanup := UserCleanup(host.invoke(f, []));
      case HandleEffect(ref, create) =>
        if ref.Fn? {
          var handle := host.invoke(create, []);
          var ignored := host.invoke(ref, [handle]);
          cleanup := ResetFnRef(ref);
        } else if !IsNullish(ref) {
          var handle := host.invoke(create, []);
          if ref.Obj? {
            ref.o.current := handle;
          }
          cleanup := ResetObjRef(ref);
        } else {
          cleanup := UserCleanup(Undefined);
        }
    }
  }

  /** Calls the cleanup function `current()`. */
  method RunCleanupBody(host: Host, c: Cleanup)
    requires CleanupArmed(c)
    modifies CleanupWrites(c)
    ensures c.ResetObjRef? && c.ref.Obj? ==> c.ref.o.current == Null
  {
    match c {
      case UserCleanup(v) =>
        var ignored := host.invoke(v, []);
      case ResetFnRef(ref) =>
        var ignored := host.invoke(ref, [Null]);
      case ResetObjRef(ref) =>
        if ref.Obj? {
          ref.o.current := Null;
        }
    }
  }

  /** `create(immediately)` (hooks.js, lines 89-100). Called without
      `immediately` on a deferred effect it only schedules `create(true)`;
      otherwise, when `create.current` is set, it runs the effect with
      `Host.isRendering` raised, stores the returned cleanup in
      `destory.current`, clears `create.current` so that a second run does
      nothing, and puts back the previous `Host.isRendering`. */
  method RunCreate(host: Host, c: CreateFn, immediately: bool)
    modifies host, c, c.teardown, EffectWrites(c.current)
    ensures host.component == old(host.component) && host.flushCount == old(host.flushCount)
    ensures host.isRendering == old(host.isRendering)
    ensures !immediately && c.deferred ==>
              && host.scheduled == old(host.scheduled) + [CreateLater(c)]
              && host.trace == old(host.trace)
              && unchanged(c, c.teardown)
    ensures (immediately || !c.deferred) && !EffectArmed(old(c.current)) ==>
              unchanged(host, c, c.teardown)
    ensures (immediately || !c.deferred) && EffectArmed(old(c.current)) ==>
              && c.current == NoEffect
              && c.teardown.current == CleanupOf(host.invoke, old(c.current))
              && host.scheduled == old(host.scheduled)
              && host.trace == old(host.trace) + [EffectRan(old(c.current), true)]
              && (old(c.current).HandleEffect? && old(c.current).ref.Obj? ==>
                    old(c.current).ref.o.current == host.invoke(old(c.current).create, []))
  {
    if !immediately && c.deferred {
      host.scheduled := host.scheduled + [CreateLater(c)];
      return;
    }
    var current := c.current;
    if EffectArmed(current) {
      var previousIsRendering := host.isRendering;
      host.isRendering := true;
      host.trace := host.trace + [EffectRan(current, host.isRendering)];
      var cleanup := RunEffectBody(host, current);
      c.teardown.current := cleanup;
      c.current := NoEffect;
      host.isRendering := previousIsRendering;
    }
  }

  /** `destory(immediately)` (hooks.js, lines 102-113): the same scheme for
      the cleanup, which is cleared to null after it ran. */
  method RunDestroy(host: Host, d: DestroyFn, immediately: bool)
    modifies host, d, CleanupWrites(d.current)
    ensures host.component == old(host.component) && host.flushCount == old(host.flushCount)
    ensures host.isRendering == old(host.isRendering)
    ensures !immediately && d.deferred ==>
              && host.scheduled == old(host.scheduled) + [DestroyLater(d)]
              && host.trace == old(host.trace)
              && unchanged(d)
    ensures (immediately || !d.deferred) && !CleanupArmed(old(d.current)) ==>
              unchanged(host, d)
    ensures (immediately || !d.deferred) && CleanupArmed(old(d.current)) ==>
              && d.current == UserCleanup(Null)
              && host.scheduled == old(host.scheduled)
              && host.trace == old(host.trace) + [CleanupRan(old(d.current), true)]
              && (old(d.current).ResetObjRef? && old(d.current).ref.Obj? ==>
                    old(d.current).ref.o.current == Null)
  {
    if !immediately && d.deferred {
      host.scheduled := host.scheduled + [DestroyLater(d)];
      return;
    }
    var current := d.current;
    if CleanupArmed(current) {
      var previousIsRendering := host.isRendering;
      host.isRendering := true;
      host.trace := host.trace + [CleanupRan(current, host.isRendering)];
      RunCleanupBody(host, current);
      d.current := UserCleanup(Null);
      host.isRendering := previousIsRendering;
    }
  }

  /** A scheduled callback, `() => create(true)` or `() => destory(true)`
      (hooks.js, lines 90 and 103), run by the scheduler. */
  method RunScheduled(host: Host, cb: Callback)
    modifies host,
      if cb.CreateLater? then {cb.c, cb.c.teardown} + EffectWrites(cb.c.current)
      else {cb.d} + CleanupWrites(cb.d.current)
    ensures host.component == old(host.component) && host.flushCount == old(host.flushCount)
    ensures host.scheduled == old(host.scheduled) && host.isRendering == old(host.isRendering)
    ensures cb.CreateLater? ==>
              if EffectArmed(old(cb.c.current)) then
                && cb.c.current == NoEffect
                && cb.c.teardown.current == CleanupOf(host.invoke, old(cb.c.current))
                && host.trace == old(host.trace) + [EffectRan(old(cb.c.current), true)]
                && (old(cb.c.current).HandleEffect? && old(cb.c.current).ref.Obj? ==>
                      old(cb.c.current).ref.o.current == host.invoke(old(cb.c.current).create, []))
              else unchanged(host, cb.c, cb.c.teardown)
    ensures cb.DestroyLater? ==>
              if CleanupArmed(old(cb.d.current)) then
                && cb.d.current == UserCleanup(Null)
                && host.trace == old(host.trace) + [CleanupRan(old(cb.d.current), true)]
                && (old(cb.d.current).ResetObjRef? && old(cb.d.current).ref.Obj? ==>
                      old(cb.d.current).ref.o.current == Null)
              else unchanged(host, cb.d)
  {
    match cb {
      case CreateLater(c) => RunCreate(host, c, true);
      case DestroyLater(d) => RunDestroy(host, d, true);
    }
  }

  /** The `didUpdateHandlers` entry of an effect slot (hooks.js, lines
      126-132): when the slot's inputs are not equal to its previous inputs it
      calls `destory()` and then `create()`. The inputs are defaulted when the
      hook is called, so `prevInputs` is never null here. */
  method RunUpdateHandler(host: Host, inst: Instance, slot: nat)
    requires inst.Valid() && slot in inst.hooks && inst.hooks[slot].EffectHook?
    modifies host, inst.hooks[slot].create, inst.hooks[slot].destroy,
      EffectWrites(inst.hooks[slot].create.current), CleanupWrites(inst.hooks[slot].destroy.current)
    ensures host.component == old(host.component) && host.flushCount == old(host.flushCount)
    ensures host.isRendering == old(host.isRendering)
    ensures var h := inst.hooks[slot];
            InputsEqual(h.inputs, h.prevInputs) ==>
              && unchanged(host, h.create, h.destroy)
              && unchanged(EffectWrites(old(h.create.current)), CleanupWrites(old(h.destroy.current)))
    ensures var h := inst.hooks[slot];
            !InputsEqual(h.inputs, h.prevInputs) && h.create.deferred ==>
              && host.scheduled == old(host.scheduled) + [DestroyLater(h.destroy), CreateLater(h.create)]
              && host.trace == old(host.trace)
              && unchanged(h.create, h.destroy)
    ensures var h := inst.hooks[slot];
            !InputsEqual(h.inputs, h.prevInputs) && !h.create.deferred ==>
              && host.scheduled == old(host.scheduled)
              && host.trace == old(host.trace)
                   + (if CleanupArmed(old(h.destroy.current)) then [CleanupRan(old(h.destroy.current), true)] else [])
                   + (if EffectArmed(old(h.create.current)) then [EffectRan(old(h.create.current), true)] else [])
              && h.create.current == (if EffectArmed(old(h.create.current)) then NoEffect else old(h.create.current))
              && h.destroy.current ==
                   (if EffectArmed(old(h.create.current)) then CleanupOf(host.invoke, old(h.create.current))
                    else if CleanupArmed(old(h.destroy.current)) then UserCleanup(Null)
                    else old(h.destroy.current))
              && (var e := old(h.create.current);
                  EffectArmed(e) && e.HandleEffect? && e.ref.Obj? ==>
                    e.ref.o.current == host.invoke(e.create, []))
              && (var d := old(h.destroy.current);
                  CleanupArmed(d) && d.ResetObjRef? && d.ref.Obj? && d.ref.o !in EffectWrites(old(h.create.current)) ==>
                    d.ref.o.current == Null)
  {
    var h := inst.hooks[slot];
    var same := AreInputsEqual(Some(h.inputs), Some(h.prevInputs));
    if same != Ok(true) {
      RunDestroy(host, h.destroy, false);
      RunCreate(host, h.create, false);
    }
  }
}

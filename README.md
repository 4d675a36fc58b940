# Reactivity core: dependency registry and reactive handles

This project is a Dafny model of an early version of a Vue-style reactivity engine. It covers
the two source files of `packages/reactivity/src`.

- `effect.dfy` (module `Effects`) models `effect.ts`. The module-level registry `targetMap`
  maps each object to a map from key to a *dep*, the set of effects that depend on that field.
  `targetMap` and the active-effect slot `activeEffect` are the two fields of a `Registry`
  object. `track` creates the per-object map and the dep when they are missing, then calls
  `trackEffects`. `trackEffects` adds the active effect to the dep unless it is already a member.
  `trigger` is an empty stub. `effect(fn)` wraps `fn` in a `ReactiveEffect` and runs it once.
  Each state-changing method is tied to a pure function that describes the new state:
  `AddEffect` for `trackEffects` and `Tracked` for `track`. `TrackAll` describes a sequence of
  `track` calls. The lemmas state what these functions guarantee.
- `reactive.dfy` (module `Reactivity`) models `reactive.ts`. A plain object is a `Target`
  whose own properties sit in a mutable map. `reactive(target)` returns a new `Handle` on it.
  The handle's `get` hook answers `true` for the `__isReactive` marker and forwards every other
  read. Its `set` hook forwards the write to the target. Everything else (`in`, `Object.keys`)
  is not intercepted, so it reaches the target directly. `isReactive` is `!!v.__isReactive`, and
  `toRaw` is the identity.

This version of the source is partial, and the model keeps it that way:

- Nothing ever assigns `activeEffect`, and `run` does not set it. `track` also does not check
  whether an effect is active. So every dep that `track` creates holds exactly `null`.
  `Registry.Valid()` states this, and `Registry.Track` preserves it.
- The handle never calls `track` or `trigger`. There is no handle cache. Nested values are not
  wrapped. `toRaw` does not unwrap a handle.

## Model

| member | source | states |
|---|---|---|
| `Effects.ReactiveEffect.constructor` | packages/reactivity/src/effect.ts:9-13 | the new effect keeps the given callback in its `fn` field |
| `Effects.ReactiveEffect.Run` | packages/reactivity/src/effect.ts:14-16 | `run`'s own code invokes the callback exactly once and touches neither `targetMap` nor `activeEffect` (what the callback itself does is not modelled) |
| `Effects.Effect` | packages/reactivity/src/effect.ts:19-22 | `effect`'s own code invokes `fn` exactly once and touches neither `targetMap` nor `activeEffect` (what `fn` itself does is not modelled) |
| `Effects.AddEffect` | packages/reactivity/src/effect.ts:57-62 | after `trackEffects` the effect is a member; no member is lost and none but the effect is added; a dep that already holds it is returned unchanged |
| `Effects.Registry.TrackEffects` | packages/reactivity/src/effect.ts:57-62 | the returned dep is the given one with the active effect added, as `AddEffect` describes |
| `Effects.AddEffectIdempotent` | packages/reactivity/src/effect.ts:58-61 | adding the same effect twice leaves the dep as after the first add, so an effect is a member at most once |
| `Effects.Tracked` | packages/reactivity/src/effect.ts:30-51 | after `track(t, k)` the registry has an entry for `t`, that entry has a dep for `k`, and the active effect is in it; a dep that was missing holds just that effect |
| `Effects.TrackedRetains` | packages/reactivity/src/effect.ts:32-45 | `track` never replaces a per-object map or a dep: every dep that existed is still there with all its members |
| `Effects.TrackedAddsOnlyActive` | packages/reactivity/src/effect.ts:47 | the only member `track` can add to an existing dep is the active effect |
| `Effects.TrackedFrame` | packages/reactivity/src/effect.ts:30-51 | the entries of every other object, and the deps of every other key of `t`, are unchanged; the only new object is `t` and the only new key is `k` |
| `Effects.TrackedWhenRegistered` | packages/reactivity/src/effect.ts:41-47 | tracking an effect that is already in the dep for `(t, k)` leaves the whole registry unchanged |
| `Effects.TrackedIdempotent` | packages/reactivity/src/effect.ts:30-62 | calling `track(t, k)` twice with the same active effect gives the same registry as calling it once |
| `Effects.TrackAllRetains` | packages/reactivity/src/effect.ts:32-45 | a sequence of `track` calls keeps every dep and every member it started with |
| `Effects.TrackAllRegistersEveryRead` | packages/reactivity/src/effect.ts:30-62 | after a sequence of `track` calls, the active effect is in the dep of every `(object, key)` pair of the sequence |
| `Effects.TrackAllRepeatedRead` | packages/reactivity/src/effect.ts:58-61 | tracking a pair again that the sequence already tracked changes nothing, so repeated reads register an effect once |
| `Effects.TrackedKeepsOnlyRegistered` | packages/reactivity/src/effect.ts:30-62 | if every dep is exactly `{e}` and `track` runs with `e` active, every dep is still exactly `{e}` |
| `Effects.Registry.constructor` | packages/reactivity/src/effect.ts:4-7 | the registry starts empty and the active-effect slot starts as `null` |
| `Effects.Registry.Track` | packages/reactivity/src/effect.ts:30-51 | the new registry is `Tracked` of the old one with the current active effect; the slot is not touched, and every dep stays exactly `{null}` |
| `Effects.Registry.Trigger` | packages/reactivity/src/effect.ts:70-72 | `trigger` changes neither the registry nor any effect |
| `Reactivity.Reactive` | packages/reactivity/src/reactive.ts:6-23 | `reactive(x)` returns a new handle on `x`, distinct from `x` and from every earlier handle (no cache) |
| `Reactivity.Handle.Get` | packages/reactivity/src/reactive.ts:8-16 | reading `__isReactive` through a handle gives `true` whatever the target holds; any other key gives exactly the target's own value |
| `Reactivity.Handle.Set` | packages/reactivity/src/reactive.ts:17-20 | a write through the handle stores the value in the target and reports success; a later read of that key on the target, or through the handle unless it is the marker, gives the value; every other key reads as before; the key set grows by that key |
| `Reactivity.MarkerIsNotAKey` | packages/reactivity/src/reactive.ts:7-21 | the marker reads `true` through a handle without being one of its keys, unless the target has it (`Has` and `OwnKeys` forward to the target) |
| `Reactivity.IsReactive` | packages/reactivity/src/reactive.ts:25-27 | true for every handle; for a plain object, true exactly when its own `__isReactive` is truthy, so false when it is absent; false for other primitives; a `TypeError` for `undefined` and `null` |
| `Reactivity.HandleIsReactive` | packages/reactivity/src/reactive.ts:10-12 | `isReactive(reactive(x))` is true whatever `x` holds |
| `Reactivity.ToRaw` | packages/reactivity/src/reactive.ts:29-31 | `toRaw` returns its argument unchanged, a handle included |
| `Reactivity.ToRawIdempotent` | packages/reactivity/src/reactive.ts:29-31 | `toRaw(toRaw(x)) == toRaw(x)` |
| `Reactivity.ToRawKeepsHandle` | packages/reactivity/src/reactive.ts:29-31 | `toRaw` of a handle is the handle, never the object behind it |

## Left out

- The `console.log` calls in `track` (effect.ts:39, 49-50) are output only.
- The registry is an ordinary finite map keyed by object identity, so weak-reference reclamation is
  not modelled. The source makes the per-object map a `WeakMap`. A string key would make
  `depsMap.set` throw at run time. The model uses a plain map there, so `track` succeeds for every
  key.
- `createDep` from `./dep` is not part of this model. A new dep is the empty set.
- Deps are values inside the registry. `trackEffects` returns the extended dep and `track` stores
  it back. This matches the in-place add, because in this version a dep is reachable only from
  the registry.
- The two module-level variables become the fields of one `Registry` object that callers pass
  around. Module state is not modelled as global.
- A callback's body is not modelled. `Callback` only counts how often it is invoked, so the callback's
  own side effects are not modelled: assignments to outer variables, or calls of `track` that change
  `targetMap`.
- The unused `options` parameter of `effect` and the unused `type` parameter of `trigger` are
  dropped.
- Proxies are modelled through own properties only. The `receiver` argument, the prototype chain,
  accessor properties, symbol keys and the order of `Object.keys` are not modelled. `OwnKeys` is a
  set.
- Reactivity.Reactive: takes a plain object only. Wrapping a handle again (a second proxy whose
  hooks go through the first) is not modelled. Neither is the `TypeError` that `new Proxy` throws on a
  primitive.
- Reactivity.Handle.Set: always reports success. The case where `Reflect.set` returns `false`
  (a frozen or non-writable target) is not modelled.
- Numbers are integers. Floating point, `NaN` and `-0` are left out of `Truthy`.
- The tests expect the following, but this version does not implement it, and no lemma claims it:
  - a write re-runs the effects that read the field (`__tests__/effect.ts:12-74`);
  - nested objects come back wrapped (`__tests__/reactive.ts:19-34`);
  - `toRaw(observed)` is the original object (`__tests__/reactive.ts:40`).
    `Reactivity.ToRawKeepsHandle` states the opposite, which is what the code does.

/**
 * The effect half of the reactivity package (packages/reactivity/src/effect.ts):
 * the `ReactiveEffect` wrapper and `effect`, the dependency registry
 * (`targetMap`, object -> key -> dep) with its active-effect slot, and the
 * `track` / `trackEffects` / `trigger` protocol over them.
 *
 * The module-level `targetMap` and `activeEffect` of the source become the two
 * fields of one `Registry` object. Its methods change it in place; the pure
 * functions `AddEffect`, `Tracked` and `TrackAll` say what those changes are,
 * and the lemmas below state what they guarantee.
 */
module Effects {

  /** A property key of a tracked object. */
  type Key = string

  /**
   * The effects subscribed to one (object, key) pair. `null` is a possible
   * member: `trackEffects` adds whatever the active-effect slot holds.
   */
  type Dep = set<ReactiveEffect?>

  /** The per-object part of the registry: key -> dep. */
  type DepsMap = map<Key, Dep>

  /** The registry: object identity -> key -> dep. */
  type TargetMap = map<object, DepsMap>

  /**
   * The user callback handed to `effect`. What it computes is not modelled,
   * only how many times it has been invoked.
   */
  class Callback {
    var calls: nat

    constructor ()
      ensures calls == 0
    {
      calls := 0;
    }

    method Invoke()
      modifies this
      ensures calls == old(calls) + 1
    {
      calls := calls + 1;
    }
  }

  /** A trackable computation: it keeps the callback in its private `fn` field. */
  class ReactiveEffect {
    var fn: Callback

    constructor (fn: Callback)
      ensures this.fn == fn
    {
      this.fn := fn;
    }

    /**
     * Invokes the callback once. It neither sets nor clears the active-effect
     * slot: its frame is the callback alone, so no registry changes.
     */
    method Run()
      modifies fn
      ensures fn.calls == old(fn.calls) + 1
    {
      fn.Invoke();
    }
  }

  /** `effect(fn)`: wraps `fn` in a new `ReactiveEffect` and runs it once. */
  method Effect(fn: Callback)
    modifies fn
    ensures fn.calls == old(fn.calls) + 1
  {
    var e := new ReactiveEffect(fn);
    e.Run();
  }

  /** What `trackEffects` does to a dep: add `e` unless it is already a member. */
  function AddEffect(dep: Dep, e: ReactiveEffect?): (r: Dep)
    ensures e in r
    ensures dep <= r && r - dep <= {e}
    ensures e in dep ==> r == dep
  {
    if e !in dep then dep + {e} else dep
  }

  /** `e` is a member of the dep of (`target`, `key`) in `tm`. */
  predicate Registered(tm: TargetMap, target: object, key: Key, e: ReactiveEffect?)
  {
    target in tm && key in tm[target] && e in tm[target][key]
  }

  /**
   * The registry after `track(target, key)` with `e` in the active-effect slot:
   * the per-object map and the dep are created empty when absent, then `e`
   * is added to the dep.
   */
  function Tracked(tm: TargetMap, target: object, key: Key, e: ReactiveEffect?): (r: TargetMap)
    ensures Registered(r, target, key, e)
    ensures target !in tm || key !in tm[target] ==> r[target][key] == {e}
  {
    var depsMap := if target in tm then tm[target] else map[];
    var dep := if key in depsMap then depsMap[key] else {};
    tm[target := depsMap[key := AddEffect(dep, e)]]
  }

  /** Every dep of `tm` is still there in `tm'`, with at least its members. */
  ghost predicate Retains(tm: TargetMap, tm': TargetMap)
  {
    forall t, k :: t in tm && k in tm[t] ==>
      t in tm' && k in tm'[t] && tm[t][k] <= tm'[t][k]
  }

  /** `track` never replaces a per-object map or a dep: every registered effect stays. */
  lemma TrackedRetains(tm: TargetMap, target: object, key: Key, e: ReactiveEffect?)
    ensures Retains(tm, Tracked(tm, target, key, e))
  {
  }

  /** `track` adds nothing to its own dep but `e`. */
  lemma TrackedAddsOnlyActive(tm: TargetMap, target: object, key: Key, e: ReactiveEffect?)
    requires target in tm && key in tm[target]
    ensures Tracked(tm, target, key, e)[target][key] - tm[target][key] <= {e}
  {
  }

  /**
   * Nothing else changes: the entry of every other object, and the dep of every
   * other key of `target`, are as before, and the only new object and key are
   * `target` and `key`.
   */
  lemma TrackedFrame(tm: TargetMap, target: object, key: Key, e: ReactiveEffect?)
    ensures Tracked(tm, target, key, e).Keys == tm.Keys + {target}
    ensures forall t :: t in tm && t != target ==> Tracked(tm, target, key, e)[t] == tm[t]
    ensures target in tm ==> Tracked(tm, target, key, e)[target].Keys == tm[target].Keys + {key}
    ensures target !in tm ==> Tracked(tm, target, key, e)[target].Keys == {key}
    ensures target in tm ==>
      forall k :: k in tm[target] && k != key ==> Tracked(tm, target, key, e)[target][k] == tm[target][k]
  {
  }

  /** Tracking an effect that is already registered for (`target`, `key`) changes nothing. */
  lemma TrackedWhenRegistered(tm: TargetMap, target: object, key: Key, e: ReactiveEffect?)
    requires Registered(tm, target, key, e)
    ensures Tracked(tm, target, key, e) == tm
  {
    assert tm[target][key := tm[target][key]] == tm[target];
  }

  /** `trackEffects` is idempotent: a second add of the same effect leaves the dep as it is. */
  lemma AddEffectIdempotent(dep: Dep, e: ReactiveEffect?)
    ensures AddEffect(AddEffect(dep, e), e) == AddEffect(dep, e)
  {
  }

  /** `track` is idempotent: tracking the same read twice is tracking it once. */
  lemma TrackedIdempotent(tm: TargetMap, target: object, key: Key, e: ReactiveEffect?)
    ensures Tracked(Tracked(tm, target, key, e), target, key, e) == Tracked(tm, target, key, e)
  {
    TrackedWhenRegistered(Tracked(tm, target, key, e), target, key, e);
  }

  /** One `track(target, key)` call. */
  datatype Read = Read(target: object, key: Key)

  /** The registry after `track` has been called for each read of `rs`, in order, with `e` active. */
  function TrackAll(tm: TargetMap, rs: seq<Read>, e: ReactiveEffect?): (r: TargetMap)
    decreases |rs|
  {
    if rs == [] then tm
    else TrackAll(Tracked(tm, rs[0].target, rs[0].key, e), rs[1..], e)
  }

  /** A sequence of `track` calls keeps every effect it found registered. */
  lemma {:induction false} TrackAllRetains(tm: TargetMap, rs: seq<Read>, e: ReactiveEffect?)
    ensures Retains(tm, TrackAll(tm, rs, e))
    decreases |rs|
  {
    if rs != [] {
      var tm1 := Tracked(tm, rs[0].target, rs[0].key, e);
      TrackedRetains(tm, rs[0].target, rs[0].key, e);
      TrackAllRetains(tm1, rs[1..], e);
    }
  }

  /** After a sequence of `track` calls, `e` is registered for every read in it. */
  lemma {:induction false} TrackAllRegistersEveryRead(tm: TargetMap, rs: seq<Read>, e: ReactiveEffect?)
    ensures forall i :: 0 <= i < |rs| ==>
      Registered(TrackAll(tm, rs, e), rs[i].target, rs[i].key, e)
    decreases |rs|
  {
    if rs != [] {
      var tm1 := Tracked(tm, rs[0].target, rs[0].key, e);
      TrackAllRegistersEveryRead(tm1, rs[1..], e);
      TrackAllRetains(tm1, rs[1..], e);
      forall i | 0 <= i < |rs|
        ensures Registered(TrackAll(tm, rs, e), rs[i].target, rs[i].key, e)
      {
        if i > 0 {
          assert rs[i] == rs[1..][i - 1];
        }
      }
    }
  }

  /** Tracking one more read after a sequence is one more `Tracked` step at the end. */
  lemma {:induction false} TrackAllSnoc(tm: TargetMap, rs: seq<Read>, rd: Read, e: ReactiveEffect?)
    ensures TrackAll(tm, rs + [rd], e) == Tracked(TrackAll(tm, rs, e), rd.target, rd.key, e)
    decreases |rs|
  {
    if rs != [] {
      var tm1 := Tracked(tm, rs[0].target, rs[0].key, e);
      assert (rs + [rd])[1..] == rs[1..] + [rd];
      TrackAllSnoc(tm1, rs[1..], rd, e);
    }
  }

  /**
   * Reading a field again in the same run registers nothing new: the dep holds
   * the effect at most once however often the field is read.
   */
  lemma TrackAllRepeatedRead(tm: TargetMap, rs: seq<Read>, rd: Read, e: ReactiveEffect?)
    requires rd in rs
    ensures TrackAll(tm, rs + [rd], e) == TrackAll(tm, rs, e)
  {
    TrackAllSnoc(tm, rs, rd, e);
    TrackAllRegistersEveryRead(tm, rs, e);
    var i :| 0 <= i < |rs| && rs[i] == rd;
    TrackedWhenRegistered(TrackAll(tm, rs, e), rd.target, rd.key, e);
  }

  /** Every dep of `tm` is exactly `{e}`. */
  ghost predicate OnlyRegistered(tm: TargetMap, e: ReactiveEffect?)
  {
    forall t, k :: t in tm && k in tm[t] ==> tm[t][k] == {e}
  }

  /** `track` with `e` active keeps every dep equal to `{e}`. */
  lemma TrackedKeepsOnlyRegistered(tm: TargetMap, target: object, key: Key, e: ReactiveEffect?)
    requires OnlyRegistered(tm, e)
    ensures OnlyRegistered(Tracked(tm, target, key, e), e)
  {
    TrackedFrame(tm, target, key, e);
  }

  /**
   * The process-wide state of effect.ts: the registry `targetMap` and the
   * active-effect slot `activeEffect`, which nothing ever assigns.
   */
  class Registry {
    var targetMap: TargetMap
    var activeEffect: ReactiveEffect?

    /**
     * The slot is still `null`, so every dep ever created holds exactly `null`.
     */
    ghost predicate Valid()
      reads this
    {
      activeEffect == null && OnlyRegistered(targetMap, activeEffect)
    }

    constructor ()
      ensures Valid()
      ensures targetMap == map[] && activeEffect == null
    {
      targetMap := map[];
      activeEffect := null;
    }

    /** `trackEffects(dep)`: the dep with the active effect added unless already a member. */
    method TrackEffects(dep: Dep) returns (r: Dep)
      ensures r == AddEffect(dep, activeEffect)
    {
      r := dep;
      if activeEffect !in r {
        r := r + {activeEffect};
      }
    }

    /**
     * `track(target, key)`: creates the per-object map and the dep when absent
     * and adds the active effect to the dep. It does not check whether an
     * effect is active.
     */
    method Track(target: object, key: Key)
      requires Valid()
      modifies this`targetMap
      ensures Valid()
      ensures targetMap == Tracked(old(targetMap), target, key, activeEffect)
    {
      ghost var tm := targetMap;
      var depsMap: DepsMap;
      if target in targetMap {
        depsMap := targetMap[target];
      } else {
        depsMap := map[];
        targetMap := targetMap[target := depsMap];
      }
      ghost var found := depsMap;
      assert found == if target in tm then tm[target] else map[];
      var dep: Dep;
      if key in depsMap {
        dep := depsMap[key];
      } else {
        dep := {};
        depsMap := depsMap[key := dep];
        targetMap := targetMap[target := depsMap];
      }
      assert dep == if key in found then found[key] else {};
      dep := TrackEffects(dep);
      // the source adds to the dep in place; the dep is reachable only from here
      depsMap := depsMap[key := dep];
      assert depsMap == found[key := dep];
      targetMap := targetMap[target := depsMap];
      assert targetMap == Tracked(tm, target, key, activeEffect);
      TrackedKeepsOnlyRegistered(tm, target, key, activeEffect);
    }

    /** `trigger(target, type, key)`: an empty body, so nothing changes. */
    method Trigger(target: object, key: Key)
      ensures unchanged(this)
    {
    }
  }

  /** The `should call only once` scenario: `effect(fn)` calls `fn` exactly once. */
  method EffectCallsOnce()
  {
    var fn := new Callback();
    Effect(fn);
    assert fn.calls == 1;
  }
}

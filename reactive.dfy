/**
 * The reactive-handle half of the reactivity package
 * (packages/reactivity/src/reactive.ts): `reactive` wraps a plain object in a
 * handle that intercepts reads and writes, `isReactive` reads the
 * `__isReactive` marker and `toRaw` hands its argument back.
 *
 * A plain object is a `Target` holding its own properties in a mutable map.
 * A handle is a `Handle` around one target: its `Get` answers the marker key
 * itself and forwards every other read, its `Set` forwards the write, and every
 * operation it does not intercept (the `in` test, listing the keys) goes
 * straight to the target.
 */
module Reactivity {

  /** A property key. */
  type Key = string

  /** The marker key `ReactiveFlags.IS_REACTIVE`. */
  const IsReactiveFlag: Key := "__isReactive"

  /** The JavaScript values the model distinguishes. */
  datatype Value =
    | Undefined
    | Null
    | Bool(b: bool)
    | Num(n: int)
    | Str(s: string)
    | Obj(obj: Target)
    | Proxy(handle: Handle)

  /** JavaScript's `!!v`. */
  predicate Truthy(v: Value)
  {
    match v
    case Undefined => false
    case Null => false
    case Bool(b) => b
    case Num(n) => n != 0
    case Str(s) => s != ""
    case Obj(_) => true
    case Proxy(_) => true
  }

  /** An operation's value, or the `TypeError` JavaScript throws. */
  datatype Result<T> = Ok(value: T) | TypeError

  /** A plain object: its own properties, updated in place. */
  class Target {
    var props: map<Key, Value>

    constructor (props: map<Key, Value>)
      ensures this.props == props
    {
      this.props := props;
    }

    /** `target[key]`: the own property, `undefined` when there is none. */
    function Lookup(key: Key): (v: Value)
      reads this
    {
      if key in props then props[key] else Undefined
    }
  }

  /** The proxy `reactive` returns: a handle on one target, with a `get` and a `set` hook. */
  class Handle {
    const target: Target

    constructor (target: Target)
      ensures this.target == target
    {
      this.target := target;
    }

    /**
     * The `get` hook: the marker key reads as `true` whatever the target
     * holds; every other key reads as the target's own value.
     */
    function Get(key: Key): (v: Value)
      reads target
      ensures key == IsReactiveFlag ==> v == Bool(true)
      ensures key != IsReactiveFlag ==> v == target.Lookup(key)
    {
      if key == IsReactiveFlag then Bool(true) else target.Lookup(key)
    }

    /** `key in handle`: not intercepted, so it asks the target. */
    function Has(key: Key): (b: bool)
      reads target
    {
      key in target.props
    }

    /** `Object.keys(handle)`: not intercepted, so it lists the target's keys. */
    function OwnKeys(): (ks: set<Key>)
      reads target
    {
      target.props.Keys
    }

    /**
     * The `set` hook: stores `value` under `key` in the target itself and
     * reports success. A later read of `key` through the handle or on the
     * target sees `value` (the marker key still reads as `true` through the
     * handle); every other key reads as before and the key set grows by `key`.
     */
    method Set(key: Key, value: Value) returns (ok: bool)
      modifies target
      ensures ok
      ensures target.props == old(target.props)[key := value]
      ensures target.Lookup(key) == value
      ensures key != IsReactiveFlag ==> Get(key) == value
      ensures forall k :: k != key ==> Get(k) == old(Get(k))
      ensures OwnKeys() == old(OwnKeys()) + {key}
    {
      target.props := target.props[key := value];
      ok := true;
    }
  }

  /**
   * `reactive(target)`: a new handle on `target`. There is no cache, so every
   * call makes a handle distinct from the target and from all earlier handles.
   */
  method Reactive(target: Target) returns (h: Handle)
    ensures fresh(h)
    ensures h.target == target
  {
    h := new Handle(target);
  }

  /** The objects `IsReactive(v)` reads. */
  function Footprint(v: Value): (fp: set<object>)
  {
    match v
    case Obj(o) => {o}
    case Proxy(h) => {h.target}
    case _ => {}
  }

  /**
   * `isReactive(v)`, that is `!!v.__isReactive`: true of every handle, and of
   * a plain object exactly when its own marker property is truthy; false of
   * the other primitives; a `TypeError` for `undefined` and `null`, on which a
   * property read throws.
   */
  function IsReactive(v: Value): (r: Result<bool>)
    reads Footprint(v)
    ensures r == TypeError <==> v == Undefined || v == Null
    ensures r == Ok(true) <==> v.Proxy? || (v.Obj? && Truthy(v.obj.Lookup(IsReactiveFlag)))
    ensures v.Obj? && IsReactiveFlag !in v.obj.props ==> r == Ok(false)
  {
    match v
    case Undefined => TypeError
    case Null => TypeError
    case Bool(_) => Ok(false)
    case Num(_) => Ok(false)
    case Str(_) => Ok(false)
    case Obj(o) => Ok(Truthy(o.Lookup(IsReactiveFlag)))
    case Proxy(h) => Ok(Truthy(h.Get(IsReactiveFlag)))
  }

  /** `toRaw(v)`: the identity; a handle is returned as it is, not unwrapped. */
  function ToRaw(v: Value): (r: Value)
    ensures r == v
  {
    v
  }

  /** `toRaw` is idempotent. */
  lemma ToRawIdempotent(v: Value)
    ensures ToRaw(ToRaw(v)) == ToRaw(v)
  {
  }

  /** `toRaw` of a handle is the handle itself, never the target behind it. */
  lemma ToRawKeepsHandle(h: Handle)
    ensures ToRaw(Proxy(h)) == Proxy(h)
    ensures ToRaw(Proxy(h)) != Obj(h.target)
  {
  }

  /** `isReactive(reactive(x))` holds whatever `x` holds under the marker key. */
  lemma HandleIsReactive(h: Handle)
    ensures IsReactive(Proxy(h)) == Ok(true)
    ensures h.Get(IsReactiveFlag) == Bool(true)
  {
  }

  /**
   * The marker key reads as `true` through a handle without being one of its
   * keys, unless the target has it.
   */
  lemma MarkerIsNotAKey(h: Handle)
    ensures IsReactiveFlag !in h.target.props ==> !h.Has(IsReactiveFlag) && h.Get(IsReactiveFlag) == Bool(true)
  {
  }

  /** The `simple reactive` and `toRaw` scenarios, as far as this version meets them. */
  method SimpleReactiveScenario()
  {
    var original := new Target(map["foo" := Num(1)]);
    var observed := Reactive(original);
    assert Proxy(observed) != Obj(original);
    assert IsReactive(Proxy(observed)) == Ok(true);
    assert IsReactive(Obj(original)) == Ok(false);
    assert observed.Get("foo") == Num(1);
    assert observed.Has("foo");
    assert observed.OwnKeys() == {"foo"};
    assert ToRaw(Obj(original)) == Obj(original);
    // the test expects toRaw(observed) to be original; this version returns observed
    assert ToRaw(Proxy(observed)) == Proxy(observed);
  }
}

/** Option handling of pageable.js: `isObject` and the recursive merge
    `extend(src, props)` that lays the caller's options over the defaults.
    JavaScript values are modelled as primitives and as objects carrying
    named properties (plain objects, arrays and functions alike). */
module Options {
  import opened Wrappers

  datatype Primitive = Undefined | Null | Bool(b: bool) | Number(n: int) | Str(s: string)

  datatype Kind = Plain | ArrayKind | FunctionKind(name: string)

  datatype Value = Obj(kind: Kind, props: map<string, Value>) | Prim(p: Primitive)

  /** Assigning a property to a primitive throws in strict mode. */
  datatype Error = TypeError

  /** JavaScript truthiness: every object is truthy; `undefined`, `null`,
      `false`, `0` and `""` are not. */
  predicate Truthy(v: Value)
  {
    match v
    case Obj(_, _) => true
    case Prim(p) =>
      match p
      case Undefined => false
      case Null => false
      case Bool(b) => b
      case Number(n) => n != 0
      case Str(s) => s != ""
  }

  /** `isObject`: `Object.prototype.toString` reports `[object Object]`,
      which holds for plain objects only, not for arrays, functions or
      `null`. */
  predicate IsObject(v: Value)
  {
    v.Obj? && v.kind == Plain
  }

  /** What `src[prop]` becomes when `extend` visits `prop` with value `val`;
      `current` is the property's value before, `None` when it is absent. */
  function Assign(current: Option<Value>, val: Value): (r: Result<Value, Error>)
    decreases val, 1
  {
    if Truthy(val) && IsObject(val) then
      var base := if current.Some? && Truthy(current.value) then current.value else Obj(Plain, map[]);
      match base
      case Obj(kind, props) =>
        (match Extend(props, val.props)
         case Success(m) => Success(Obj(kind, m))
         case Failure(e) => Failure(e))
      case Prim(_) =>
        if |val.props| == 0 then Success(base) else Failure(TypeError)
    else Success(val)
  }

  function Get(m: map<string, Value>, k: string): Option<Value>
  {
    if k in m then Some(m[k]) else None
  }

  /** `extend(src, props)`: every own key of `props` is written into `src`;
      a truthy plain-object value is merged recursively into `src[prop] || {}`,
      any other value (including `0`, `false` and `""`) overwrites. Keys of
      `src` that `props` lacks keep their values. The merge throws when it has
      to assign a property to a truthy primitive. */
  function Extend(src: map<string, Value>, props: map<string, Value>): (r: Result<map<string, Value>, Error>)
    ensures r.Success? ==> r.value.Keys == src.Keys + props.Keys
    ensures r.Success? ==> forall k :: k in src && k !in props ==> r.value[k] == src[k]
    ensures r.Success? ==> forall k :: k in props && !IsObject(props[k]) ==> r.value[k] == props[k]
    ensures r.Success? ==> forall k :: k in props && IsObject(props[k]) ==>
              Assign(Get(src, k), props[k]) == Success(r.value[k])
    ensures r.Failure? <==> exists k :: k in props && Assign(Get(src, k), props[k]).Failure?
    decreases Obj(Plain, props), 0
  {
    var entries := map k | k in props :: Assign(Get(src, k), props[k]);
    if exists k :: k in entries && entries[k].Failure? then Failure(TypeError)
    else Success(map k | k in src.Keys + props.Keys :: if k in props then entries[k].value else src[k])
  }

  /** The `for ... in` loop of `extend`: visits the keys of `props` one at a
      time and writes each into `src` (the nested merge of a plain object is
      `Assign`); the first assignment to a primitive ends it with a
      `TypeError`. */
  method ExtendInPlace(src: map<string, Value>, props: map<string, Value>) returns (r: Result<map<string, Value>, Error>)
    ensures r == Extend(src, props)
  {
    var result := src;
    var todo := props.Keys;
    while todo != {}
      invariant todo <= props.Keys
      invariant result.Keys == src.Keys + (props.Keys - todo)
      invariant forall k :: k in src && (k !in props || k in todo) ==> result[k] == src[k]
      invariant forall k :: k in props && k !in todo ==> Assign(Get(src, k), props[k]) == Success(result[k])
      decreases todo
    {
      var k :| k in todo;
      assert Get(result, k) == Get(src, k);
      var entry := Assign(Get(result, k), props[k]);
      if entry.Failure? {
        assert Extend(src, props).Failure?;
        return Failure(TypeError);
      }
      result := result[k := entry.value];
      todo := todo - {k};
    }
    ExtendSucceedsWith(src, props, result);
    r := Success(result);
  }

  /** A map that agrees with every entry `extend` writes, and with `src`
      elsewhere, is what `extend` returns. */
  lemma ExtendSucceedsWith(src: map<string, Value>, props: map<string, Value>, result: map<string, Value>)
    requires result.Keys == src.Keys + props.Keys
    requires forall k :: k in src && k !in props ==> result[k] == src[k]
    requires forall k :: k in props ==> Assign(Get(src, k), props[k]) == Success(result[k])
    ensures Extend(src, props) == Success(result)
  {
    var spec := Extend(src, props);
    assert spec.Success?;
    assert spec.value.Keys == result.Keys;
    forall k | k in result
      ensures spec.value[k] == result[k]
    {
    }
    assert spec.value == result;
  }

  /** Merging the same options a second time changes nothing. */
  lemma {:induction false} ExtendIdempotent(src: map<string, Value>, props: map<string, Value>)
    requires Extend(src, props).Success?
    ensures Extend(Extend(src, props).value, props) == Extend(src, props)
    decreases Obj(Plain, props), 0
  {
    var r := Extend(src, props).value;
    forall k | k in props
      ensures k in r && Assign(Get(r, k), props[k]) == Success(r[k])
    {
      assert Get(r, k) == Some(r[k]);
      if IsObject(props[k]) {
        AssignIdempotent(Get(src, k), props[k]);
      }
    }
    ExtendFixed(r, props);
  }

  /** Options every one of whose entries already sits in `src` leave `src`
      as it is. */
  lemma ExtendFixed(src: map<string, Value>, props: map<string, Value>)
    requires forall k :: k in props ==> k in src && Assign(Get(src, k), props[k]) == Success(src[k])
    ensures Extend(src, props) == Success(src)
  {
    var again := Extend(src, props);
    assert again.Success?;
    assert again.value.Keys == src.Keys;
    forall k | k in src
      ensures again.value[k] == src[k]
    {
      if k in props && !IsObject(props[k]) {
        assert Assign(Get(src, k), props[k]) == Success(props[k]);
      }
    }
    assert again.value == src;
  }

  lemma {:induction false} AssignIdempotent(current: Option<Value>, val: Value)
    requires Assign(current, val).Success?
    ensures Assign(Some(Assign(current, val).value), val) == Assign(current, val)
    decreases val, 1
  {
    if Truthy(val) && IsObject(val) {
      var base := if current.Some? && Truthy(current.value) then current.value else Obj(Plain, map[]);
      if base.Obj? {
        ExtendIdempotent(base.props, val.props);
      }
    }
  }

  /** Options holding no plain object simply override: `extend` is then the
      map update `src + props`. In particular empty options leave the
      defaults as they are. */
  lemma ExtendFlat(src: map<string, Value>, props: map<string, Value>)
    requires forall k :: k in props ==> !IsObject(props[k])
    ensures Extend(src, props) == Success(src + props)
  {
    var r := Extend(src, props);
    assert forall k :: k in props ==> Assign(Get(src, k), props[k]) == Success(props[k]);
    assert r.Success?;
    assert r.value.Keys == (src + props).Keys;
    forall k | k in r.value
      ensures r.value[k] == (src + props)[k]
    {
    }
    assert r.value == src + props;
  }

  /** The defaults of pageable.js: transitions of 300 ms with no delay, a
      50 px swipe threshold, vertical orientation, pips on, free scroll,
      slideshow and infinite mode off, every input device enabled. */
  function Defaults(): map<string, Value>
  {
    map[
      "pips" := Prim(Bool(true)),
      "animation" := Prim(Number(300)),
      "delay" := Prim(Number(0)),
      "throttle" := Prim(Number(50)),
      "orientation" := Prim(Str("vertical")),
      "easing" := Obj(FunctionKind("easing"), map[]),
      "onInit" := Obj(FunctionKind("noop"), map[]),
      "onUpdate" := Obj(FunctionKind("noop"), map[]),
      "onBeforeStart" := Obj(FunctionKind("noop"), map[]),
      "onStart" := Obj(FunctionKind("noop"), map[]),
      "onScroll" := Obj(FunctionKind("noop"), map[]),
      "onFinish" := Obj(FunctionKind("noop"), map[]),
      "swipeThreshold" := Prim(Number(50)),
      "freeScroll" := Prim(Bool(false)),
      "slideshow" := Prim(Bool(false)),
      "infinite" := Prim(Bool(false)),
      "events" := Obj(Plain, DefaultEvents())
    ]
  }

  function DefaultEvents(): map<string, Value>
  {
    map["wheel" := Prim(Bool(true)), "mouse" := Prim(Bool(true)), "touch" := Prim(Bool(true))]
  }

  /** Options holding one plain object under `key` and only non-objects
      elsewhere: the object is merged into what `src` holds under `key`
      (a plain object here) when its own entries are flat, every other
      option overwrites, and keys the options lack keep their values. */
  lemma {:induction false} NestedObjectIsMerged(src: map<string, Value>, others: map<string, Value>, key: string, inner: map<string, Value>)
    requires key in src && IsObject(src[key])
    requires key !in others && forall k :: k in others ==> !IsObject(others[k])
    requires forall k :: k in inner ==> !IsObject(inner[k])
    ensures var r := Extend(src, others[key := Obj(Plain, inner)]);
            r.Success? &&
            r.value[key] == Obj(Plain, src[key].props + inner) &&
            (forall k :: k in others ==> r.value[k] == others[k]) &&
            (forall k :: k in src && k != key && k !in others ==> r.value[k] == src[k])
  {
    var opts := others[key := Obj(Plain, inner)];
    ExtendFlat(src[key].props, inner);
    assert Assign(Get(src, key), opts[key]) == Success(Obj(Plain, src[key].props + inner));
    forall k | k in opts
      ensures Assign(Get(src, k), opts[k]).Success?
    {
      if k != key {
        assert Assign(Get(src, k), opts[k]) == Success(others[k]);
      }
    }
    assert Extend(src, opts).Success?;
  }

  /** Switching one input device off keeps the other two on, because the
      nested `events` object is merged rather than replaced; a falsy
      `delay: 0` still overwrites, and keys the options lack keep their
      defaults. */
  lemma {:induction false} NestedEventsAreMerged(src: map<string, Value>)
    requires "events" in src && src["events"] == Obj(Plain, DefaultEvents())
    ensures Extend(src, WheelOff()).Success?
    ensures Extend(src, WheelOff()).value["events"] == Obj(Plain, DefaultEvents()["wheel" := Prim(Bool(false))])
    ensures Extend(src, WheelOff()).value["delay"] == Prim(Number(0))
    ensures forall k :: k in src && k != "events" && k != "delay" ==> Extend(src, WheelOff()).value[k] == src[k]
  {
    var inner := map["wheel" := Prim(Bool(false))];
    NestedObjectIsMerged(src, map["delay" := Prim(Number(0))], "events", inner);
    UnionWithOne(DefaultEvents(), "wheel", Prim(Bool(false)));
  }

  lemma UnionWithOne(m: map<string, Value>, k: string, v: Value)
    ensures m + map[k := v] == m[k := v]
  {
  }

  /** The options `{ delay: 0, events: { wheel: false } }`. */
  function WheelOff(): map<string, Value>
  {
    map["delay" := Prim(Number(0)), "events" := Obj(Plain, map["wheel" := Prim(Bool(false))])]
  }
}

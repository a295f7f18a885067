/**
 * The identity monad of `src/lib/box.ts`: a box holds one value, `map` and
 * `flatMap` build new boxes from it, and `apply` maps a boxed function over
 * another box. Nothing is mutated. The operator keys `"<$>"`, `"<*>"` and
 * `">>="` are bound to the same closures as `map`, `apply` and `flatMap`.
 */
module Box {
  import opened JsValue

  datatype Box<T> = Pack(value: T)
  {
    function Map<U>(fn: T -> U): Box<U>
    {
      Pack(fn(value))
    }

    function FlatMap<U>(fn: T -> Box<U>): Box<U>
    {
      fn(value)
    }

    function GetValue(): T
    {
      value
    }

    /** `"<$>"`: the `map` closure. */
    function FMap<U>(fn: T -> U): Box<U>
    {
      Map(fn)
    }

    /** `">>="`: the `flatMap` closure. */
    function Bind<U>(fn: T -> Box<U>): Box<U>
    {
      FlatMap(fn)
    }
  }

  /** `fb.apply(b)`: the function in `fb` mapped over `b`. */
  function Apply<A, B>(fb: Box<A -> B>, b: Box<A>): Box<B>
  {
    var fn := fb.GetValue();
    b.Map(a => fn(a))
  }

  /** `"<*>"`: the `apply` closure. */
  function Ap<A, B>(fb: Box<A -> B>, b: Box<A>): Box<B>
  {
    Apply(fb, b)
  }

  lemma PackGetValue<T>(v: T)
    ensures Pack(v).GetValue() == v
  {
  }

  lemma MapLaws<T, U, V>(b: Box<T>, v: T, f: T -> U, g: U -> V)
    ensures Pack(v).Map(f).GetValue() == f(v)
    ensures b.Map(x => x) == b
    ensures b.Map(f).Map(g) == b.Map(x => g(f(x)))
  {
  }

  lemma FlatMapLaws<T, U, V>(b: Box<T>, v: T, f: T -> Box<U>, g: U -> Box<V>)
    ensures Pack(v).FlatMap(f) == f(v)
    ensures b.FlatMap(x => Pack(x)) == b
    ensures b.FlatMap(f).FlatMap(g) == b.FlatMap(x => f(x).FlatMap(g))
  {
  }

  lemma ApplyLaws<A, B>(f: A -> B, a: A, b: Box<A>)
    ensures Apply(Pack(f), Pack(a)).GetValue() == f(a)
    ensures Apply(Pack((x: A) => x), b) == b
  {
  }

  /** The operator keys behave exactly as the named methods. */
  lemma AliasesAgree<A, B>(b: Box<A>, f: A -> B, k: A -> Box<B>, fb: Box<A -> B>)
    ensures b.FMap(f) == b.Map(f)
    ensures b.Bind(k) == b.FlatMap(k)
    ensures Ap(fb, b) == Apply(fb, b)
  {
  }

  // ---------------------------------------------------------------------------
  // `isBox` on arbitrary JavaScript values

  /**
   * The object `box(v)` returns for box `b`, as far as `isBox` can see it: the
   * closures over `b`'s value are function-valued properties.
   */
  function Packed<T>(b: Box<T>): Value
  {
    Object(map[
      "isBox" := Bool(true),
      "map" := Function("map"),
      "apply" := Function("apply"),
      "flatMap" := Function("flatMap"),
      "getValue" := Function("getValue"),
      "<$>" := Function("map"),
      "<*>" := Function("apply"),
      ">>=" := Function("flatMap")])
  }

  /** `value?.isBox === true`. */
  predicate IsBox(v: Value)
  {
    GetOptional(v, "isBox") == Bool(true)
  }

  /**
   * `isBox` holds for every packed box, and for any other value exactly when
   * it is an object whose `isBox` property is `true`; `null` and `undefined`
   * do not throw.
   */
  lemma IsBoxSpec<T>(v: Value, b: Box<T>)
    ensures IsBox(Packed(b))
    ensures IsBox(v) <==> v.Object? && "isBox" in v.props && v.props["isBox"] == Bool(true)
    ensures v == Null || v == Undefined ==> !IsBox(v)
  {
  }
}

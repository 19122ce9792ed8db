/** The values a parsed JSON payload holds once it is in the JavaScript runtime,
    and the few operations the prediction pages apply to them: truthiness,
    `Array.isArray`, property reads, `v[0]`, array destructuring `[x] = v`,
    strict equality and `Array.prototype.indexOf`.
    Reading a property of `null` or `undefined` throws a TypeError; that is
    the one exception these operations raise. */
module JsValue {
  import opened JsText

  datatype Value =
    | Undefined
    | Null
    | Bool(b: bool)
    | Number(n: real)
    | Str(s: string)
    | Arr(items: seq<Value>)
    | Obj(fields: map<string, Value>)

  /** What a failed step throws: an Error with a message, or a TypeError whose
      message text the engine chooses. */
  datatype Failure = Message(text: string) | TypeError

  /** An operation that either yields a value or throws. */
  datatype Result<+T> = Ok(value: T) | Thrown(failure: Failure)

  /** `if (v)`: the falsy values are undefined, null, false, 0 and "". */
  predicate Truthy(v: Value) {
    match v
    case Undefined => false
    case Null => false
    case Bool(b) => b
    case Number(n) => n != 0.0
    case Str(s) => s != ""
    case _ => true
  }

  /** `v.key` for a data key that no built-in prototype defines: an own field of
      an object, `undefined` on any other non-null value, a TypeError on null
      and undefined. */
  function Get(v: Value, key: string): (r: Result<Value>)
    ensures r.Thrown? <==> (v == Null || v == Undefined)
    ensures r.Thrown? ==> r.failure == TypeError
    ensures r.Ok? && v.Obj? && key in v.fields ==> r.value == v.fields[key]
    ensures r.Ok? && !(v.Obj? && key in v.fields) ==> r.value == Undefined
  {
    match v
    case Undefined => Thrown(TypeError)
    case Null => Thrown(TypeError)
    case Obj(fields) => Ok(if key in fields then fields[key] else Undefined)
    case _ => Ok(Undefined)
  }

  /** `v[0]`: the first element of an array, the first character of a string,
      the field "0" of an object, `undefined` otherwise; a TypeError on null and
      undefined. */
  function Index0(v: Value): (r: Result<Value>)
    ensures r.Thrown? <==> (v == Null || v == Undefined)
    ensures v.Arr? ==> r == Ok(if |v.items| > 0 then v.items[0] else Undefined)
    ensures v.Str? ==> r == Ok(if |v.s| > 0 then Str([v.s[0]]) else Undefined)
    ensures (v.Number? || v.Bool?) ==> r == Ok(Undefined)
  {
    match v
    case Undefined => Thrown(TypeError)
    case Null => Thrown(TypeError)
    case Arr(items) => Ok(if |items| > 0 then items[0] else Undefined)
    case Str(s) => Ok(if |s| > 0 then Str([s[0]]) else Undefined)
    case Obj(fields) => Ok(if "0" in fields then fields["0"] else Undefined)
    case _ => Ok(Undefined)
  }

  /** `const [x] = v`: the first item the value iterates over. Only arrays and
      strings are iterable here; anything else throws a TypeError. */
  function Destructure0(v: Value): (r: Result<Value>)
    ensures r.Ok? <==> (v.Arr? || v.Str?)
    ensures v.Arr? ==> r == Index0(v)
  {
    match v
    case Arr(items) => Ok(if |items| > 0 then items[0] else Undefined)
    case Str(s) => Ok(if |s| > 0 then Str([s[0]]) else Undefined)
    case _ => Thrown(TypeError)
  }

  /** Where `v[0]` and `[x] = v` agree and where they differ: on arrays and
      strings they give the same element, on numbers, booleans and objects
      only `v[0]` succeeds. */
  lemma Index0VersusDestructure0(v: Value)
    ensures (v.Arr? || v.Str?) ==> Index0(v) == Destructure0(v)
    ensures (v.Number? || v.Bool? || v.Obj?) ==> Index0(v).Ok? && Destructure0(v).Thrown?
    ensures (v == Null || v == Undefined) ==> Index0(v).Thrown? && Destructure0(v).Thrown?
  {
  }

  /** `a === b`. Arrays and objects from a parsed payload are distinct
      objects, so they are never strictly equal to anything. */
  predicate StrictEquals(a: Value, b: Value) {
    match a
    case Undefined => b.Undefined?
    case Null => b.Null?
    case Bool(x) => b.Bool? && b.b == x
    case Number(x) => b.Number? && b.n == x
    case Str(x) => b.Str? && b.s == x
    case _ => false
  }

  /** Strict equality is equality on the primitive values. */
  lemma StrictEqualsOnPrimitives(a: Value, b: Value)
    requires !a.Arr? && !a.Obj?
    ensures StrictEquals(a, b) <==> a == b
  {
  }

  /** `xs.indexOf(x)`: the first position whose element is strictly equal to
      `x`, or -1 when there is none. */
  function IndexOf(xs: seq<Value>, x: Value): (r: int)
    ensures -1 <= r < |xs|
    ensures r == -1 <==> forall j :: 0 <= j < |xs| ==> !StrictEquals(xs[j], x)
    ensures r >= 0 ==> StrictEquals(xs[r], x) && forall j :: 0 <= j < r ==> !StrictEquals(xs[j], x)
    decreases |xs|
  {
    if |xs| == 0 then -1
    else if StrictEquals(xs[0], x) then 0
    else
      var k := IndexOf(xs[1..], x);
      assert forall j :: 1 <= j < |xs| ==> xs[j] == xs[1..][j - 1];
      if k == -1 then -1 else k + 1
  }

  /** What one `fetch` gave: a rejected promise, or a response with its `ok`
      flag and the outcome of reading its body as JSON. */
  datatype Reply = Rejected(failure: Failure) | Received(ok: bool, body: Result<Value>)
}

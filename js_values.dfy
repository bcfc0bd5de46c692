/** JavaScript values as the plugin sees them: the parts of the language the
    middlewares rely on, namely object literals, property reads (which throw
    a TypeError on `null` and `undefined`), method calls (which throw on a
    property that is not a function) and truthiness tests. */
module JsValues {

  datatype Option<+T> = None | Some(value: T)

  /** The error a property read or write on `null` or `undefined` throws,
      or a call of a property that is not a function. */
  datatype TypeError =
    | CannotReadProperty(key: string)
    | CannotSetProperty(key: string)
    | NotAFunction(key: string)

  /** A computation that either yields a value or throws a TypeError. */
  datatype Result<+T> = Ok(value: T) | Err(error: TypeError) {
    predicate IsFailure() {
      Err?
    }

    function PropagateFailure<U>(): Result<U>
      requires Err?
    {
      Err(error)
    }

    function Extract(): T
      requires Ok?
    {
      value
    }
  }

  /** A JavaScript value. Objects are maps from property names to values;
      numbers are integers (no floating point, no NaN); a function is known
      only as something that can be called. */
  datatype Value =
    | Undefined
    | Null
    | Bool(b: bool)
    | Num(n: int)
    | Str(s: string)
    | Arr(items: seq<Value>)
    | Obj(fields: map<string, Value>)
    | Function
  {
    /** `null` and `undefined`: the values on which a property read throws. */
    predicate Nullish() {
      Undefined? || Null?
    }

    /** JavaScript truthiness: `undefined`, `null`, `false`, `0` and `''` are
        falsy, every object, array and function is truthy. */
    predicate Truthy() {
      match this
      case Undefined => false
      case Null => false
      case Bool(b) => b
      case Num(n) => n != 0
      case Str(s) => s != ""
      case Arr(_) => true
      case Obj(_) => true
      case Function => true
    }
  }

  /** `v[key]` on a value that is not nullish: an own property of an object,
      `undefined` otherwise (none of the property names this plugin reads is
      a built-in property of strings, arrays or `Object.prototype`). */
  function Prop(v: Value, key: string): Value
    requires !v.Nullish()
  {
    if v.Obj? && key in v.fields then v.fields[key] else Undefined
  }

  /** `v[key]` on any value: throws a TypeError when `v` is nullish. */
  function Member(v: Value, key: string): (r: Result<Value>)
    ensures r.Err? <==> v.Nullish()
    ensures r.Ok? ==> r.value == Prop(v, key)
    ensures r.Err? ==> r.error == CannotReadProperty(key)
  {
    if v.Nullish() then Err(CannotReadProperty(key)) else Ok(Prop(v, key))
  }

  /** `v[key](...)` where the call itself returns normally: it throws when
      `v` is nullish or when `v[key]` is not a function. */
  function Invoke(v: Value, key: string): (thrown: Option<TypeError>)
    ensures thrown.None? <==> !v.Nullish() && Prop(v, key).Function?
  {
    match Member(v, key)
    case Err(error) => Some(error)
    case Ok(f) => if f.Function? then None else Some(NotAFunction(key))
  }
}

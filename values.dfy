/** The run-time values a caller may pass to a log method, and their
    rendering to text (`stringifyArg`). */
module Values {

  datatype Option<+T> = None | Some(value: T)

  /** JavaScript truthiness of an optional string: `undefined` and `""` are
      falsy, every other string is truthy. */
  predicate Truthy(o: Option<string>)
  {
    o.Some? && o.value != ""
  }

  /** A JavaScript number. Negative zero is `Finite(0.0)`: it prints as
      "0", the only thing the facade does with a number. */
  datatype Number = Finite(finite: real) | NaN | Infinity | NegativeInfinity

  /** One argument of a variadic log call. `Obj` is any non-null object that
      is not an Error; what it holds is seen only through JSON serialisation,
      so the model keeps just its identity. `Err` is an `Error` instance: its
      message, its stack and its identity, which stands for every other own
      property (a `code`, an `errno`) that JSON serialisation may show. */
  datatype Arg =
    | Str(text: string)
    | Num(value: Number)
    | Bool(truth: bool)
    | Null
    | Undefined
    | Obj(ref: nat)
    | Err(message: string, stack: Option<string>, ref: nat)
  {
    /** The value's type is "object" and it is not null. */
    predicate IsObject()
    {
      Obj? || Err?
    }
  }

  /** The host functions the renderer calls and that this model leaves
      uninterpreted: `JSON.stringify` on an object and `String` on a finite
      number. */
  datatype Runtime = Runtime(json: Arg -> string, numberText: real -> string)

  /** `stringifyArg`: objects (Errors included) are serialised as JSON, every
      other value takes its default string form. */
  function StringifyArg(rt: Runtime, a: Arg): (r: string)
    ensures a.IsObject() ==> r == rt.json(a)
    ensures a.Str? ==> r == a.text
    ensures a.Num? && a.value.Finite? ==> r == rt.numberText(a.value.finite)
    ensures a == Num(NaN) ==> r == "NaN"
    ensures a == Num(Infinity) ==> r == "Infinity"
    ensures a == Num(NegativeInfinity) ==> r == "-Infinity"
    ensures a.Null? ==> r == "null"
    ensures a.Undefined? ==> r == "undefined"
    ensures a.Bool? ==> r == (if a.truth then "true" else "false")
  {
    if a.IsObject() then rt.json(a) else DefaultText(rt, a)
  }

  /** `String(arg)` for the values that are not objects. */
  function DefaultText(rt: Runtime, a: Arg): string
    requires !a.IsObject()
  {
    match a
    case Str(s) => s
    case Num(Finite(x)) => rt.numberText(x)
    case Num(NaN) => "NaN"
    case Num(Infinity) => "Infinity"
    case Num(NegativeInfinity) => "-Infinity"
    case Bool(b) => if b then "true" else "false"
    case Null => "null"
    case Undefined => "undefined"
  }
}

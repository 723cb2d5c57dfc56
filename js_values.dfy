/** Script values as the playground's console code sees them, with the two
    truthiness and text-conversion rules it relies on. */
module JsValues {

  datatype Option<+T> = None | Some(value: T)

  /** A script value. A number is kept as the text the script engine prints
      for it (`String(n)`); objects and functions are opaque references whose
      text forms come from a `Render`. */
  datatype JsValue =
    | Undefined
    | Null
    | Boolean(b: bool)
    | Number(shown: string)
    | Text(s: string)
    | Object(ref: nat)    // every non-null value whose typeof is 'object'
    | Callable(ref: nat)  // a function value

  /** The host conversions the model does not interpret: `json(ref)` is
      `JSON.stringify(obj, null, 2)` (None when it throws, as on a cycle),
      `coerce(ref)` is `String(obj)`. */
  datatype Render = Render(json: nat -> Option<string>, coerce: nat -> string)

  /** The script's truthiness test, as used by `||`, `&&`, `!` and `?:`. */
  predicate Truthy(v: JsValue)
    ensures v.Undefined? || v.Null? ==> !Truthy(v)
    ensures v.Text? ==> (Truthy(v) <==> v.s != "")
    ensures v.Boolean? ==> (Truthy(v) <==> v.b)
    ensures v.Number? ==> (Truthy(v) <==> v.shown != "0" && v.shown != "NaN")
    ensures v.Object? || v.Callable? ==> Truthy(v)
  {
    match v
    case Undefined => false
    case Null => false
    case Boolean(b) => b
    case Number(shown) => shown != "0" && shown != "NaN"
    case Text(s) => s != ""
    case Object(_) => true
    case Callable(_) => true
  }

  /** `String(v)`. */
  function ToText(v: JsValue, r: Render): (t: string)
    ensures v.Text? ==> t == v.s
    ensures v.Number? ==> t == v.shown
    ensures v.Undefined? ==> t == "undefined"
    ensures v.Null? ==> t == "null"
    ensures v.Boolean? ==> (t == "true" <==> v.b) && (t == "false" <==> !v.b)
    ensures (v.Object? || v.Callable?) ==> t == r.coerce(v.ref)
  {
    match v
    case Undefined => "undefined"
    case Null => "null"
    case Boolean(b) => if b then "true" else "false"
    case Number(shown) => shown
    case Text(s) => s
    case Object(ref) => r.coerce(ref)
    case Callable(ref) => r.coerce(ref)
  }

  /** One argument's rendering: structural text for a non-null object,
      falling back to `String` when serialisation throws; `String` for
      everything else. `ConsoleOutput.formatMessage` and the interceptor's
      argument map spell out the same rule. */
  function Format(v: JsValue, r: Render): (t: string)
    ensures !v.Object? ==> t == ToText(v, r)
    ensures v.Object? && r.json(v.ref).None? ==> t == r.coerce(v.ref)
    ensures v.Object? && r.json(v.ref).Some? ==> t == r.json(v.ref).value
  {
    if v.Object? then
      match r.json(v.ref)
      case Some(s) => s
      case None => ToText(v, r)
    else ToText(v, r)
  }

  /** A string argument renders as itself under every host conversion. */
  lemma FormatText(s: string, r: Render)
    ensures Format(Text(s), r) == s
  {
  }

  /** Only objects consult the host conversions: a primitive renders the same
      under any two of them. */
  lemma FormatPrimitiveIgnoresRender(v: JsValue, r1: Render, r2: Render)
    requires !v.Object? && !v.Callable?
    ensures Format(v, r1) == Format(v, r2)
  {
  }
}

/** JavaScript values as the hooks see them, and the few language rules
    (truthiness, property access, spreading, throwing) that the modelled
    code relies on. */
module JsValue {

  /** A JSON-shaped JavaScript value. `undefined` is not a value of this
      type: wherever JavaScript may produce it, the model uses `Option.None`.
      Numbers are integers, since every number the modelled code reads or
      writes is an id, a length or a page number. The insertion order of an
      object's keys is not modelled. */
  datatype Json =
    | Null
    | Bool(b: bool)
    | Num(n: int)
    | Str(s: string)
    | Arr(items: seq<Json>)
    | Obj(fields: map<string, Json>)

  /** `Some(v)` for a value, `None` for `undefined` (or NaN where a number
      is parsed). */
  datatype Option<+T> = None | Some(value: T)

  /** The completion of an expression that may throw: its value, or the
      `TypeError` that JavaScript raises when it reads a property of
      `undefined`/`null` or spreads a value that is not iterable. */
  datatype Result<+T> = Ok(value: T) | TypeError

  /** JavaScript truthiness, as tested by `if (hero)`. */
  predicate Truthy(v: Json)
  {
    match v
    case Null => false
    case Bool(b) => b
    case Num(n) => n != 0
    case Str(s) => s != ""
    case Arr(_) => true
    case Obj(_) => true
  }

  /** `v?.name` where `name` is neither `length` nor an index: the field of
      an object, and `undefined` for every other value. A field holding
      `null` is reported as `None` too, since a following `?.` stops at
      `null` just as at `undefined`. */
  function OptionalField(v: Option<Json>, name: string): (r: Option<Json>)
    ensures r.Some? ==> r.value != Null
    ensures r.Some? <==> v.Some? && v.value.Obj? && name in v.value.fields && v.value.fields[name] != Null
    ensures r.Some? ==> r.value == v.value.fields[name]
  {
    match v
    case Some(Obj(fields)) =>
      if name in fields && fields[name] != Null then Some(fields[name]) else None
    case _ => None
  }

  /** The elements `[...v]` spreads into an array literal: the items of an
      array, or the characters of a string, one string each. Any other value
      is not iterable and the spread throws (`None`). */
  function Spread(v: Json): (r: Option<seq<Json>>)
    ensures r.Some? <==> v.Arr? || v.Str?
    ensures v.Arr? ==> r == Some(v.items)
    ensures v.Str? ==> r.Some? && |r.value| == |v.s|
    ensures v.Str? ==> forall i :: 0 <= i < |v.s| ==> r.value[i] == Str([v.s[i]])
  {
    match v
    case Arr(items) => Some(items)
    case Str(s) => Some(seq(|s|, i requires 0 <= i < |s| => Str([s[i]])))
    case _ => None
  }
}

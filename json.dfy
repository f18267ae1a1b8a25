/**
 * JSON values as they travel between the browser client and the FastAPI
 * backend, with the two languages' notions of truthiness and of `typeof`.
 */
module JsonValues {
  import opened Wrappers

  /** A parsed JSON value. Objects are keyed maps: a duplicate key in the text
      keeps its last value in both JavaScript and Python. Numbers are reals;
      NaN and infinities cannot occur in JSON. */
  datatype Json =
    | Null
    | Bool(b: bool)
    | Num(n: real)
    | Str(s: string)
    | Arr(items: seq<Json>)
    | Obj(fields: map<string, Json>)

  /** JavaScript truthiness of a parsed JSON value (`!!v`): null, false, 0 and
      the empty string are falsy; every array and object is truthy. */
  predicate JsTruthy(v: Json)
    ensures !JsTruthy(v) <==> v in {Null, Bool(false), Num(0.0), Str("")}
  {
    match v
    case Null => false
    case Bool(b) => b
    case Num(n) => n != 0.0
    case Str(s) => s != ""
    case Arr(_) => true
    case Obj(_) => true
  }

  /** JavaScript's `typeof` on a parsed JSON value; null and arrays are "object". */
  function TypeOf(v: Json): (t: string)
    ensures t in {"object", "boolean", "number", "string"}
    ensures t == "object" <==> v.Null? || v.Arr? || v.Obj?
    ensures v.Bool? ==> t == "boolean"
    ensures v.Num? ==> t == "number"
    ensures v.Str? ==> t == "string"
  {
    match v
    case Null => "object"
    case Bool(_) => "boolean"
    case Num(_) => "number"
    case Str(_) => "string"
    case Arr(_) => "object"
    case Obj(_) => "object"
  }

  /** Python truthiness of the value `json.loads` produces: None, False, 0,
      the empty string, the empty list and the empty dict are falsy. */
  predicate PyTruthy(v: Json)
    ensures !PyTruthy(v) <==> v in {Null, Bool(false), Num(0.0), Str(""), Arr([]), Obj(map[])}
  {
    match v
    case Null => false
    case Bool(b) => b
    case Num(n) => n != 0.0
    case Str(s) => s != ""
    case Arr(items) => |items| > 0
    case Obj(fields) => |fields| > 0
  }

  /** JavaScript's optional member access `v?.key` on a parsed JSON value,
      for keys that are not built-in properties: only an object that has the
      key yields a value; everything else yields undefined (None). */
  function Member(v: Option<Json>, key: string): (r: Option<Json>)
    ensures r.Some? <==> v.Some? && v.value.Obj? && key in v.value.fields
    ensures r.Some? ==> r.value == v.value.fields[key]
  {
    match v
    case Some(Obj(fields)) => if key in fields then Some(fields[key]) else None
    case _ => None
  }

  /** An object with the single member `key: value`. */
  function Single(key: string, value: Json): (r: Json)
    ensures r.Obj? && r.fields.Keys == {key} && r.fields[key] == value
  {
    Obj(map[key := value])
  }

  /** The two truthiness notions disagree exactly on empty arrays and empty
      objects, which JavaScript keeps and Python drops. */
  lemma TruthinessDisagreement(v: Json)
    ensures JsTruthy(v) != PyTruthy(v) <==> v == Arr([]) || v == Obj(map[])
  {
  }
}

/**
 * The Python objects that travel through the framework's pipes and dicts:
 * None, bools, ints, strings, lists, dicts, instances of user classes, the
 * error objects of the ProcessError family, and game objects the framework
 * only passes along.
 */
module PyValue {
  import opened Exceptions
  import opened PyText

  datatype Value =
    | NoneV
    | BoolV(b: bool)
    | IntV(i: int)
    | StrV(s: string)
    | ListV(items: seq<Value>)
    | DictV(entries: map<string, Value>)
    /** An instance of a user class: its class, the classes it derives from, and its attributes. */
    | ObjectV(cls: string, bases: seq<string>, attrs: map<string, Value>)
    /** A ProcessError instance. */
    | ErrorV(err: ProcessError)
    /** An MLClientExecutionError instance. */
    | ClientErrorV(message: string)
    /** A scene-information object or another game object, identified by a tag. */
    | OpaqueV(tag: int)

  const READY := StrV("READY")

  /** Python truthiness. */
  predicate Truthy(v: Value) {
    match v
    case NoneV => false
    case BoolV(b) => b
    case IntV(i) => i != 0
    case StrV(s) => s != ""
    case ListV(xs) => xs != []
    case DictV(m) => m != map[]
    case _ => true
  }

  /** `d.get(key, default)`. */
  function Get(d: map<string, Value>, key: string, default: Value): Value {
    if key in d then d[key] else default
  }

  /** `isinstance(v, int)`, which bools satisfy too. */
  predicate IsInt(v: Value) {
    v.IntV? || v.BoolV?
  }

  function AsInt(v: Value): int
    requires IsInt(v)
  {
    if v.IntV? then v.i else if v.b then 1 else 0
  }

  /** `isinstance(v, cls)` for instances of user classes. */
  predicate IsInstance(v: Value, cls: string) {
    v.ObjectV? && (v.cls == cls || cls in v.bases)
  }

  /** `str(v)` for None, bools, ints and strings; other objects render as a placeholder. */
  function Str(v: Value): string {
    match v
    case NoneV => "None"
    case BoolV(b) => if b then "True" else "False"
    case IntV(i) => DecimalString(i)
    case StrV(s) => s
    case _ => "<object>"
  }
}

/**
 * The Python values that flow through the simulator's logging and argument
 * parsing, reduced to the distinctions the modelled code actually makes.
 */
module Values {

  /**
   * A Python value. `List` stands for every finite iterable whose iteration
   * yields `items` in order (list, tuple, range); `Object` for any other
   * object, seen only through its attributes (a price sample, for one).
   */
  datatype Value =
    | NoneValue
    | Bool(b: bool)
    | Int(i: int)
    | Str(s: string)
    | List(items: seq<Value>)
    | Dict(entries: map<string, Value>)
    | Object(attrs: map<string, Value>)

  /** `isinstance(v, int)`: in Python a bool is an int. */
  predicate IsInt(v: Value)
  {
    v.Int? || v.Bool?
  }

  /** Whether `for x in v` is allowed. */
  predicate Iterable(v: Value)
  {
    v.List? || v.Str? || v.Dict?
  }

  /** Python truthiness, as used by `any([...])` and `a or b`. */
  predicate Truthy(v: Value)
  {
    match v
    case NoneValue => false
    case Bool(b) => b
    case Int(i) => i != 0
    case Str(s) => s != ""
    case List(items) => items != []
    case Dict(entries) => entries != map[]
    case Object(_) => true
  }
}

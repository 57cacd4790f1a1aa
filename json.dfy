/**
 * The loosely typed values the store receives from the remote service: rows of
 * the `collections`, `products` and `site_settings` tables and the structured
 * payload kept in a settings row.  `Undefined` is JavaScript's `undefined`, the
 * value read from a member that is not there.
 */
module Json {

  datatype Value =
    | Undefined
    | Null
    | Bool(b: bool)
    | Num(n: real)
    | Str(s: string)
    | Arr(items: seq<Value>)
    | Obj(fields: map<string, Value>)

  /** A row as returned by a table read: always an object. */
  type Row = map<string, Value>

  /** `row.k`, which is `undefined` when the column is absent. */
  function Field(row: Row, k: string): Value {
    if k in row then row[k] else Undefined
  }

  /**
   * `v.k` on an arbitrary value.  Member reads on primitives, arrays and
   * missing members give `undefined` for the field names the store asks for
   * (none of them is an array index, `length` or a prototype member).
   */
  function Member(v: Value, k: string): Value {
    if v.Obj? && k in v.fields then v.fields[k] else Undefined
  }

  /** `k in v` for an object-typed `v` and one of the store's field names. */
  predicate Has(v: Value, k: string) {
    v.Obj? && k in v.fields
  }

  /** `typeof v === 'object'`: true of `null`, arrays and objects. */
  predicate IsObjectType(v: Value) {
    v.Null? || v.Arr? || v.Obj?
  }

  /** JavaScript truthiness (`!!v`). */
  predicate Truthy(v: Value) {
    match v
    case Undefined => false
    case Null => false
    case Bool(b) => b
    case Num(n) => n != 0.0
    case Str(s) => s != ""
    case Arr(_) => true
    case Obj(_) => true
  }

  /**
   * `a === b`.  Primitives compare by value; arrays and objects compare by
   * reference, and two values decoded from separate responses are never the
   * same reference.
   */
  predicate StrictEquals(a: Value, b: Value) {
    !a.Arr? && !a.Obj? && a == b
  }
}

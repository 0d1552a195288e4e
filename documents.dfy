/**
 * Documents (ql::datum_t): immutable trees of typed values. Numbers are kept as
 * integers; nothing in the modelled code looks inside a number.
 */
module Documents {

  datatype Datum =
    | Null
    | Bool(b: bool)
    | Num(n: int)
    | Str(s: string)
    | Arr(items: seq<Datum>)
    | Obj(fields: map<string, Datum>)

  /** datum_t::get_type_name */
  function TypeName(d: Datum): string {
    match d
    case Null => "NULL"
    case Bool(_) => "BOOL"
    case Num(_) => "NUMBER"
    case Str(_) => "STRING"
    case Arr(_) => "ARRAY"
    case Obj(_) => "OBJECT"
  }

  /** An object that carries the field `name` (datum_t::get(name, NOTHROW).has()). */
  predicate HasField(d: Datum, name: string) {
    d.Obj? && name in d.fields
  }
}

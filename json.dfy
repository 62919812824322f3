/** The values that the `serialize` methods put into their result
    dictionaries: integers, strings, `None`, and nested dictionaries. */
module Json {
  import opened Wrappers

  datatype Value =
    | IntVal(i: int)
    | StrVal(s: string)
    | NullVal
    | DictVal(d: map<string, Value>)

  /** A serialised record: a flat mapping from field name to value. */
  type Dict = map<string, Value>

  /** A nullable string column as it appears in a serialised record:
      `None` becomes null, anything else the string itself. */
  function Nullable(o: Option<string>): (v: Value)
    ensures v == NullVal <==> o.None?
    ensures o.Some? ==> v.StrVal? && v.s == o.value
  {
    match o
    case None => NullVal
    case Some(s) => StrVal(s)
  }

}

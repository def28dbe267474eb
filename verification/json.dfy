/** JSON values as the client hands them to its callers. Objects are unordered,
    as in the org.json library the client builds them with. Every number is a
    real: whether org.json holds it as an Integer, a Long, a Double or a
    BigDecimal is not kept. */
module Json {

  datatype Value =
    | Null
    | Bool(b: bool)
    | Number(n: real)
    | Str(s: string)
    | Array(items: seq<Value>)
    | Object(members: map<string, Value>)
}

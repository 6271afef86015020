/** JSON documents as the program reads and writes them, and JavaScript truthiness. */
module Json {

  /** A JSON value. Numbers are integers here; fractional numbers are not modelled. */
  datatype Value =
    | Null
    | Bool(b: bool)
    | Num(n: int)
    | Str(s: string)
    | List(items: seq<Value>)
    | Object(fields: map<string, Value>)

  /** JavaScript truthiness of a parsed JSON value. */
  predicate Truthy(v: Value) {
    match v
    case Null => false
    case Bool(b) => b
    case Num(n) => n != 0
    case Str(s) => s != ""
    case List(_) => true
    case Object(_) => true
  }

  /** What reading and parsing a JSON configuration file gives: either nothing usable
      (missing, unreadable or malformed) or a top-level object. */
  datatype FileRead = Unreadable | Document(fields: map<string, Value>)

  /** `graceful(file)`: a file that cannot be read or parsed is an empty object. */
  function Graceful(f: FileRead): (obj: map<string, Value>)
    ensures f.Unreadable? ==> obj == map[]
    ensures f.Document? ==> obj == f.fields
  {
    match f
    case Unreadable => map[]
    case Document(fields) => fields
  }

  /** Every value of a string map as a JSON string, as when `process.env` is loaded as a layer. */
  function Strings(m: map<string, string>): (r: map<string, Value>)
    ensures r.Keys == m.Keys
    ensures forall k | k in r :: r[k] == Str(m[k])
  {
    map k | k in m :: Str(m[k])
  }
}

/** JSON documents as Python's json module decodes them, and the dict operations the client uses on them. */
module Json {

  /** A decoded JSON value. Numbers are kept to integers. */
  datatype Value =
    | Null
    | Bool(b: bool)
    | Num(n: int)
    | Str(s: string)
    | Arr(items: seq<Value>)
    | Obj(fields: map<string, Value>)

  /** `d.get(key, default)` on a dict `d`: a key that is present wins, even when its value is null. */
  function Get(fields: map<string, Value>, key: string, default: Value): (v: Value)
    ensures key in fields ==> v == fields[key]
    ensures key !in fields ==> v == default
  {
    if key in fields then fields[key] else default
  }

  /** The name of the Python type a JSON value decodes to. */
  function PyTypeName(v: Value): string
  {
    match v
    case Null => "NoneType"
    case Bool(_) => "bool"
    case Num(_) => "int"
    case Str(_) => "str"
    case Arr(_) => "list"
    case Obj(_) => "dict"
  }

  /** The text of the AttributeError that `v.get(...)` raises when `v` is not a dict. */
  function NoGetError(v: Value): (text: string)
    ensures var name := PyTypeName(v);
            && |text| == |name| + 32
            && text[0] == '\'' && text[1..1 + |name|] == name
            && text[1 + |name|..] == "' object has no attribute 'get'"
  {
    "'" + PyTypeName(v) + "' object has no attribute 'get'"
  }
}

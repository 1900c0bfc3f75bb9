/** The values the warehouse stores: Python values handed to `warehouse`, and
    the JSON documents `json.dumps` makes of them, kept as structured values
    rather than as text. */
module Documents {
  import opened Dates

  /** A JSON value. Object members are kept in the order they are written. */
  datatype Json =
    | JNull
    | JBool(b: bool)
    | JInt(i: int)
    | JString(s: string)
    | JArray(items: seq<Json>)
    | JObject(members: seq<(string, Json)>)

  /** A dict key: a string, or a key of a type `json.dumps` cannot write
      (a tuple, an object), named by its type. */
  datatype DictKey = StrKey(s: string) | OtherKey(typeName: string)

  /** A Python value. `PyObject` is an instance whose `__dict__` holds its
      attributes in assignment order; `PySlotted` is an instance with no
      `__dict__`. */
  datatype PyValue =
    | PyNone
    | PyBool(b: bool)
    | PyInt(i: int)
    | PyStr(s: string)
    | PyList(items: seq<PyValue>)
    | PyDict(entries: seq<(DictKey, PyValue)>)
    | PyDateTime(d: DateTime)
    | PyObject(className: string, attrs: seq<(string, PyValue)>)
    | PySlotted(className: string)

  /** `type(v).__name__`. */
  function TypeName(v: PyValue): string {
    match v
    case PyNone => "NoneType"
    case PyBool(_) => "bool"
    case PyInt(_) => "int"
    case PyStr(_) => "str"
    case PyList(_) => "list"
    case PyDict(_) => "dict"
    case PyDateTime(_) => "datetime"
    case PyObject(c, _) => c
    case PySlotted(c) => c
  }
}

/** Option and Result wrappers shared by every module of the model. */
module Results {

  datatype Option<+T> = None | Some(value: T)

  /** A definition error (the source's `Error` / `ValueError`) carries no
      payload: its message text is not part of the model. */
  datatype Result<+T> = Ok(value: T) | Error
}

/** The generic, already-deserialized documents that schemas and inputs are
    made of, and the location paths that validation reports. */
module Values {

  /** Python's None, bool, int/long/float, str/unicode, list/tuple and dict
      with string keys. Numbers are exact rationals. */
  datatype Value =
    | Null
    | Boolean(b: bool)
    | Number(n: real)
    | Text(s: string)
    | List(items: seq<Value>)
    | Dict(fields: map<string, Value>)

  /** Python truthiness: None, False, 0, "", [] and {} are false. */
  predicate Truthy(v: Value)
  {
    match v
    case Null => false
    case Boolean(b) => b
    case Number(n) => n != 0.0
    case Text(s) => s != []
    case List(items) => items != []
    case Dict(fields) => fields != map[]
  }

  /** `n % 1 == 0` on a Python number. */
  predicate IsIntegral(n: real)
  {
    n.Floor as real == n
  }

  /** One step of descent: an index into a list or a key of a dict. */
  datatype Segment = Index(i: nat) | Key(k: string)

  type Path = seq<Segment>

  /** `opt.get(key)`, with an absent key read as None. */
  function Get(fields: map<string, Value>, key: string): Value
  {
    if key in fields then fields[key] else Null
  }

  /** `schema.get(key)` is truthy. */
  predicate Given(fields: map<string, Value>, key: string)
  {
    key in fields && Truthy(fields[key])
  }
}

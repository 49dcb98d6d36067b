/** JavaScript values as the bot's core sees them: bodies parsed from the
    record store's JSON responses, and the "Nothing" marker that the Result
    constructors put in place of an absent or falsy payload.

    Reading a property that does not exist gives JavaScript's `undefined`,
    which is `None` here. */
module Values {

  datatype Option<T> = None | Some(value: T)

  datatype Value =
    | Null
    | Bool(b: bool)
    | Num(n: int)
    | Str(s: string)
    | Arr(items: seq<Value>)
    | Obj(fields: map<string, Value>)
      /** An instance of the `Nothing` class; it prints as "[ Empty Value ]". */
    | Nothing

  /** JavaScript truthiness: `null`, `false`, `0` and `""` are falsy; arrays,
      objects and the `Nothing` marker are truthy. */
  predicate Truthy(v: Value) {
    match v
    case Null => false
    case Bool(b) => b
    case Num(n) => n != 0
    case Str(s) => s != ""
    case _ => true
  }

  /** What a Result built by `Ok(...)` or `Err(...)` can hold. */
  type Payload = v: Value | Truthy(v) witness Nothing

  /** `v[key]` (or `v.key`) for a non-numeric key. Only objects have such
      properties: the keys the core reads ("list", "Id", "discord_user_id",
      "xp", "level") name no built-in property of strings, arrays, numbers,
      booleans or `Nothing`. Reading a property of `null` throws, so callers
      rule that out first. */
  function Field(v: Value, key: string): Option<Value>
    requires !v.Null?
  {
    match v
    case Obj(m) => if key in m then Some(m[key]) else None
    case _ => None
  }

  /** `v[0]`: the first element of an array, the first character of a string
      (as a one-character string), or an object's "0" property. */
  function First(v: Value): Option<Value>
    requires !v.Null?
  {
    match v
    case Arr(items) => if |items| > 0 then Some(items[0]) else None
    case Str(s) => if |s| > 0 then Some(Str([s[0]])) else None
    case Obj(m) => if "0" in m then Some(m["0"]) else None
    case _ => None
  }
}

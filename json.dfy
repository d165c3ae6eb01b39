/**
 * A flat JSON object and how Go's `encoding/json` decodes one field of it
 * into a struct field of type string, int or bool: a missing key or `null`
 * leaves the Go zero value, a value of the wrong JSON type is an error.
 */
module Json {
  import opened Wrappers
  import Decimal

  datatype Value = Null | Bool(b: bool) | Number(n: int) | Str(s: string)

  type Object = map<string, Value>

  /** The JSON kind `encoding/json` names in a type error. */
  function Kind(v: Value): string {
    match v
      case Null => "null"
      case Bool(_) => "bool"
      case Number(_) => "number"
      case Str(_) => "string"
  }

  /**
   * The text of `UnmarshalTypeError` for a struct field: the JSON value,
   * the struct type's name (empty for an anonymous struct), the field's
   * key and the Go type.
   */
  function TypeError(value: string, structName: string, key: string, goType: string): string {
    "json: cannot unmarshal " + value + " into Go struct field " + structName + "." + key + " of type " + goType
  }

  function DecodeString(obj: Object, structName: string, key: string): (r: Result<string>)
    ensures key !in obj ==> r == Ok("")
    ensures r.Ok? <==> key !in obj || obj[key].Null? || obj[key].Str?
    ensures key in obj && obj[key].Str? ==> r == Ok(obj[key].s)
    ensures r.Err? ==> r.msg == TypeError(Kind(obj[key]), structName, key, "string")
  {
    if key !in obj then Ok("")
    else match obj[key]
      case Null => Ok("")
      case Str(s) => Ok(s)
      case v => Err(TypeError(Kind(v), structName, key, "string"))
  }

  /**
   * Go's `int` and `int64` are 64 bits wide here; a number outside that
   * range does not decode, and the error quotes the number.
   */
  function DecodeInt(obj: Object, structName: string, key: string, goType: string): (r: Result<int>)
    ensures key !in obj ==> r == Ok(0)
    ensures r.Ok? <==> key !in obj || obj[key].Null? ||
                       (obj[key].Number? && Decimal.Int64Min <= obj[key].n <= Decimal.Int64Max)
    ensures key in obj && obj[key].Number? && r.Ok? ==> r.value == obj[key].n
    ensures r.Err? && obj[key].Number? ==>
              r.msg == TypeError("number " + Decimal.IntToDecimal(obj[key].n), structName, key, goType)
    ensures r.Err? && !obj[key].Number? ==> r.msg == TypeError(Kind(obj[key]), structName, key, goType)
  {
    if key !in obj then Ok(0)
    else match obj[key]
      case Null => Ok(0)
      case Number(n) =>
        if Decimal.Int64Min <= n <= Decimal.Int64Max then Ok(n)
        else Err(TypeError("number " + Decimal.IntToDecimal(n), structName, key, goType))
      case v => Err(TypeError(Kind(v), structName, key, goType))
  }

  function DecodeBool(obj: Object, structName: string, key: string): (r: Result<bool>)
    ensures key !in obj ==> r == Ok(false)
    ensures r.Ok? <==> key !in obj || obj[key].Null? || obj[key].Bool?
    ensures key in obj && obj[key].Bool? ==> r == Ok(obj[key].b)
    ensures r.Err? ==> r.msg == TypeError(Kind(obj[key]), structName, key, "bool")
  {
    if key !in obj then Ok(false)
    else match obj[key]
      case Null => Ok(false)
      case Bool(b) => Ok(b)
      case v => Err(TypeError(Kind(v), structName, key, "bool"))
  }
}

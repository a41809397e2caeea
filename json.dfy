/**
 * An abstract JSON value (the `serde_json::Value` the bridge passes around)
 * and the field readers that derived deserialisers apply to an object.
 * Text is never parsed here: a frame arrives already parsed or marked malformed.
 */
module Json {
  import opened Wrappers
  import opened Ints

  /** Numbers are integers in this model; an object is a map from keys to values. */
  datatype Json =
    | Null
    | Bool(b: bool)
    | Number(n: int)
    | Str(s: string)
    | Arr(items: seq<Json>)
    | Obj(fields: map<string, Json>)

  /** Why a derived deserialiser rejected a value. */
  datatype DecodeError =
    | NotAnObject
    | MissingField(name: string)
    | InvalidType(name: string)
    | UnknownVariant(tag: string)

  /** `Value::get(key)`: the field of an object, nothing for any other value. */
  function Get(v: Json, key: string): (r: Option<Json>)
    ensures r.Some? <==> v.Obj? && key in v.fields
    ensures r.Some? ==> r.value == v.fields[key]
  {
    if v.Obj? && key in v.fields then Some(v.fields[key]) else None
  }

  /** `Value::as_str()`: the content of a JSON string, nothing otherwise. */
  function AsStr(v: Json): (r: Option<string>)
    ensures r.Some? <==> v.Str?
    ensures r.Some? ==> r.value == v.s
  {
    if v.Str? then Some(v.s) else None
  }

  /** A required field of an object. */
  function Field(fields: map<string, Json>, name: string): (r: Result<Json, DecodeError>)
    ensures r.Ok? <==> name in fields
    ensures r.Ok? ==> r.value == fields[name]
    ensures r.Err? ==> r.error == MissingField(name)
  {
    if name in fields then Ok(fields[name]) else Err(MissingField(name))
  }

  /** A required `String` field. */
  function StrField(fields: map<string, Json>, name: string): (r: Result<string, DecodeError>)
    ensures r.Ok? <==> name in fields && fields[name].Str?
    ensures r.Ok? ==> r.value == fields[name].s
  {
    if name !in fields then Err(MissingField(name))
    else if fields[name].Str? then Ok(fields[name].s)
    else Err(InvalidType(name))
  }

  /** A required `bool` field. */
  function BoolField(fields: map<string, Json>, name: string): (r: Result<bool, DecodeError>)
    ensures r.Ok? <==> name in fields && fields[name].Bool?
    ensures r.Ok? ==> r.value == fields[name].b
  {
    if name !in fields then Err(MissingField(name))
    else if fields[name].Bool? then Ok(fields[name].b)
    else Err(InvalidType(name))
  }

  /** A required `i64` field: a number that fits in 64 signed bits. */
  function I64Field(fields: map<string, Json>, name: string): (r: Result<I64, DecodeError>)
    ensures r.Ok? <==> name in fields && fields[name].Number? && I64Min <= fields[name].n <= I64Max
    ensures r.Ok? ==> r.value == fields[name].n
  {
    if name !in fields then Err(MissingField(name))
    else if fields[name].Number? && I64Min <= fields[name].n <= I64Max then Ok(fields[name].n)
    else Err(InvalidType(name))
  }

  /** A required `u64` field: a number that fits in 64 unsigned bits. */
  function U64Field(fields: map<string, Json>, name: string): (r: Result<U64, DecodeError>)
    ensures r.Ok? <==> name in fields && fields[name].Number? && 0 <= fields[name].n < U64Modulus
    ensures r.Ok? ==> r.value == fields[name].n
  {
    if name !in fields then Err(MissingField(name))
    else if fields[name].Number? && 0 <= fields[name].n < U64Modulus then Ok(fields[name].n)
    else Err(InvalidType(name))
  }

  /** A required `i32` field. */
  function I32Field(fields: map<string, Json>, name: string): (r: Result<I32, DecodeError>)
    ensures r.Ok? <==> name in fields && fields[name].Number? && I32Min <= fields[name].n <= I32Max
    ensures r.Ok? ==> r.value == fields[name].n
  {
    if name !in fields then Err(MissingField(name))
    else if fields[name].Number? && I32Min <= fields[name].n <= I32Max then Ok(fields[name].n)
    else Err(InvalidType(name))
  }

  /** An `Option<String>` field: absent or null reads as None. */
  function OptStrField(fields: map<string, Json>, name: string): (r: Result<Option<string>, DecodeError>)
    ensures r == Ok(None) <==> name !in fields || fields[name] == Null
    ensures r.Ok? && r.value.Some? <==> name in fields && fields[name].Str?
  {
    if name !in fields || fields[name] == Null then Ok(None)
    else if fields[name].Str? then Ok(Some(fields[name].s))
    else Err(InvalidType(name))
  }

  /** The discriminator of an internally or adjacently tagged enum: a string field. */
  function Tag(v: Json, name: string): (r: Result<string, DecodeError>)
    ensures r.Ok? <==> v.Obj? && name in v.fields && v.fields[name].Str?
    ensures r.Ok? ==> r.value == v.fields[name].s
  {
    if !v.Obj? then Err(NotAnObject) else StrField(v.fields, name)
  }
}

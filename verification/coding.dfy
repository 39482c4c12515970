/**
 * Swift's keyed `Codable` containers, reduced to what the entities use: a
 * container maps coding-key strings to typed values, and each `decode`
 * either yields a value of the requested type or throws the matching
 * `DecodingError`. The concrete JSON text is below this level.
 */
module Coding {
  import opened Wrappers
  import opened Entities

  datatype Value =
    | Null
    | Bool(b: bool)
    | Number(x: real)
    | Str(s: string)
    | Id(uuid: Uuid)
    | Date(t: Timestamp)
    | Dict(entries: map<string, Value>)

  type Container = map<string, Value>

  datatype DecodingError =
    | KeyNotFound(key: string)
    | ValueNotFound(key: string)
    | TypeMismatch(key: string)
    | DataCorrupted(key: string)

  type Decoded<T> = Result<T, DecodingError>

  /** The error `decode` throws for `key` when the stored value has the wrong type. */
  function Mismatch<T>(c: Container, key: string): (r: Decoded<T>)
    requires key in c
  {
    if c[key] == Null then Err(ValueNotFound(key)) else Err(TypeMismatch(key))
  }

  /** `decode(UUID.self, forKey:)` */
  function DecodeId(c: Container, key: string): (r: Decoded<Uuid>)
    ensures r.Ok? <==> key in c && c[key].Id?
    ensures r.Ok? ==> c[key] == Id(r.value)
    ensures key !in c ==> r == Err(KeyNotFound(key))
  {
    if key !in c then Err(KeyNotFound(key))
    else if c[key].Id? then Ok(c[key].uuid)
    else Mismatch(c, key)
  }

  /** `decodeIfPresent(UUID.self, forKey:)`: an absent key or a null both give nil. */
  function DecodeIdIfPresent(c: Container, key: string): (r: Decoded<Option<Uuid>>)
    ensures r == Ok(None) <==> key !in c || c[key] == Null
    ensures r.Ok? && r.value.Some? ==> c[key] == Id(r.value.value)
  {
    if key !in c || c[key] == Null then Ok(None)
    else if c[key].Id? then Ok(Some(c[key].uuid))
    else Err(TypeMismatch(key))
  }

  /** `decode(String.self, forKey:)` */
  function DecodeString(c: Container, key: string): (r: Decoded<string>)
    ensures r.Ok? <==> key in c && c[key].Str?
    ensures r.Ok? ==> c[key] == Str(r.value)
    ensures key !in c ==> r == Err(KeyNotFound(key))
  {
    if key !in c then Err(KeyNotFound(key))
    else if c[key].Str? then Ok(c[key].s)
    else Mismatch(c, key)
  }

  /** `decode(Bool.self, forKey:)` */
  function DecodeBool(c: Container, key: string): (r: Decoded<bool>)
    ensures r.Ok? <==> key in c && c[key].Bool?
    ensures r.Ok? ==> c[key] == Bool(r.value)
    ensures key !in c ==> r == Err(KeyNotFound(key))
  {
    if key !in c then Err(KeyNotFound(key))
    else if c[key].Bool? then Ok(c[key].b)
    else Mismatch(c, key)
  }

  /** `decode(Double.self, forKey:)` */
  function DecodeNumber(c: Container, key: string): (r: Decoded<real>)
    ensures r.Ok? <==> key in c && c[key].Number?
    ensures r.Ok? ==> c[key] == Number(r.value)
    ensures key !in c ==> r == Err(KeyNotFound(key))
  {
    if key !in c then Err(KeyNotFound(key))
    else if c[key].Number? then Ok(c[key].x)
    else Mismatch(c, key)
  }

  /** `decode(Date.self, forKey:)` */
  function DecodeDate(c: Container, key: string): (r: Decoded<Timestamp>)
    ensures r.Ok? <==> key in c && c[key].Date?
    ensures r.Ok? ==> c[key] == Date(r.value)
    ensures key !in c ==> r == Err(KeyNotFound(key))
  {
    if key !in c then Err(KeyNotFound(key))
    else if c[key].Date? then Ok(c[key].t)
    else Mismatch(c, key)
  }

  /** A dictionary all of whose values are numbers: the shape of `[String: Double]`. */
  predicate IsNumberDict(v: Value) {
    v.Dict? && forall k :: k in v.entries ==> v.entries[k].Number?
  }

  function NumbersOf(v: Value): (m: map<string, real>)
    requires IsNumberDict(v)
    ensures m.Keys == v.entries.Keys
    ensures forall k :: k in m ==> v.entries[k] == Number(m[k])
  {
    map k | k in v.entries :: v.entries[k].x
  }

  /** `decode([String: Double].self, forKey:)` */
  function DecodeNumberDict(c: Container, key: string): (r: Decoded<map<string, real>>)
    ensures r.Ok? <==> key in c && IsNumberDict(c[key])
    ensures r.Ok? ==> r.value == NumbersOf(c[key])
    ensures key !in c ==> r == Err(KeyNotFound(key))
  {
    if key !in c then Err(KeyNotFound(key))
    else if IsNumberDict(c[key]) then Ok(NumbersOf(c[key]))
    else Mismatch(c, key)
  }

  /** `decodeIfPresent([String: Double].self, forKey:)` */
  function DecodeNumberDictIfPresent(c: Container, key: string): (r: Decoded<Option<map<string, real>>>)
    ensures r == Ok(None) <==> key !in c || c[key] == Null
    ensures r.Ok? && r.value.Some? ==> IsNumberDict(c[key]) && r.value.value == NumbersOf(c[key])
  {
    if key !in c || c[key] == Null then Ok(None)
    else if IsNumberDict(c[key]) then Ok(Some(NumbersOf(c[key])))
    else Err(TypeMismatch(key))
  }
}

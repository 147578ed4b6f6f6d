/** Value types shared by the tile generator model: Go's `error`/`nil`
    conventions, the fixed-width integers the generator converts between,
    and an opaque JSON value for the parameter maps and query bodies. */
module Values {

  /** Go's `nil`-or-value, used for `error` returns and for map lookups. */
  datatype Option<+T> = None | Some(value: T)

  /** An error as returned by a collaborator; its text is carried unchanged. */
  datatype Error = Error(message: string)

  /** The `(value, error)` pair of a Go call with exactly one of the two set. */
  datatype Result<+T> = Success(value: T) | Failure(error: Error) {
    /** The `error` half of the pair: `nil` exactly on success. */
    function Err(): (e: Option<Error>)
      ensures e.None? <==> Success?
      ensures Failure? ==> e == Some(error)
    {
      if Success? then None else Some(error)
    }
  }

  const TWO_TO_32: int := 0x1_0000_0000

  newtype int64 = x: int | -0x8000_0000_0000_0000 <= x < 0x8000_0000_0000_0000
  newtype uint32 = x: int | 0 <= x < 0x1_0000_0000
  newtype byte = x: int | 0 <= x < 0x100

  /** Go's conversion `uint32(x)` of an `int64`: keeps the low 32 bits of the
      two's-complement representation, i.e. reduces modulo 2^32. */
  function ToUint32(x: int64): (r: uint32)
    ensures (x as int - r as int) % TWO_TO_32 == 0
    ensures 0 <= x as int < TWO_TO_32 ==> r as int == x as int
  {
    (x as int % TWO_TO_32) as uint32
  }

  /** Values at the edges of the conversion: -1 wraps to the largest
      `uint32`, 2^32 wraps to zero. */
  lemma ToUint32Wraps()
    ensures ToUint32(-1) == 0xFFFF_FFFF
    ensures ToUint32(0x1_0000_0000) == 0
    ensures ToUint32(0x1_0000_0005) == 5
  {
  }

  /** An opaque JSON value: tile parameters, queries, aggregation bodies and
      raw aggregation responses are carried as such. */
  datatype Json =
    | JNull
    | JBool(b: bool)
    | JNumber(n: int)
    | JString(s: string)
    | JArray(items: seq<Json>)
    | JObject(fields: map<string, Json>)

  /** Go's map index `m[k]` on a map whose value type is nilable: `nil`
      when the key is absent. */
  function GoIndex<K, V>(m: map<K, V>, k: K): (v: Option<V>)
    ensures v.Some? <==> k in m
    ensures v.Some? ==> v.value == m[k]
  {
    if k in m then Some(m[k]) else None
  }
}

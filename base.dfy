/** Shared vocabulary: optional values, Go-style errors, fixed-width integers and gRPC status codes. */
module Base {

  datatype Option<+T> = None | Some(value: T)

  /** A Go `error`: either a root cause or a `fmt.Errorf("<context>: %w", inner)` wrapping of another error. */
  datatype Error = Cause(message: string) | Wrapped(context: string, inner: Error)

  /** The `(T, error)` pair of a Go function that either yields a value or fails. */
  datatype Result<+T> = Ok(value: T) | Err(error: Error)

  /** gRPC status codes the controllers return. */
  datatype Code = InvalidArgument | NotFound | Internal

  /** A controller reply: the response message, or a gRPC status error. */
  datatype Reply<+T> = Success(value: T) | Failure(code: Code)

  type byte = x: int | 0 <= x < 0x100
  type Bytes = seq<byte>

  const TWO_TO_THE_64: int := 0x1_0000_0000_0000_0000

  type uint64 = x: int | 0 <= x < 0x1_0000_0000_0000_0000
  type int64 = x: int | -0x8000_0000_0000_0000 <= x < 0x8000_0000_0000_0000
  type int32 = x: int | -0x8000_0000 <= x < 0x8000_0000

  /** Go's conversion `int64(u)`: the same 64 bits read as a two's-complement number. */
  function AsInt64(u: uint64): (r: int64)
    ensures (u - r) % TWO_TO_THE_64 == 0
    ensures u < 0x8000_0000_0000_0000 <==> r >= 0
  {
    if u < 0x8000_0000_0000_0000 then u else u - TWO_TO_THE_64
  }

  /** The entry of a map of injected outcomes, if any. */
  function Lookup<K, V>(m: map<K, V>, k: K): (r: Option<V>)
    ensures r.Some? <==> k in m
    ensures r.Some? ==> r.value == m[k]
  {
    if k in m then Some(m[k]) else None
  }

  lemma AppendAssoc<T>(a: seq<T>, b: seq<T>, c: seq<T>)
    ensures (a + b) + c == a + (b + c)
  {
  }
}

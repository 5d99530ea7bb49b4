/** Shared vocabulary of the mesh simulator model: node identifiers, raw bytes
    and the two failure-carrying wrappers used by every other module. */
module Common {

  /** Node identifiers are the topology's `id` strings. */
  type NodeId = string

  /** Byte strings: ciphertexts, nonces and key material. */
  type Bytes = seq<bv8>

  datatype Option<+T> = None | Some(value: T)

  datatype Result<+T, +E> = Ok(value: T) | Err(error: E)

  /** The result of a request handler: `Pass`, or `Fail` with the error it answers with. */
  datatype Outcome<+E> = Pass | Fail(error: E)

  /** `a` is a suffix of `b`. */
  predicate IsSuffix<T(==)>(a: seq<T>, b: seq<T>)
  {
    |a| <= |b| && a == b[|b| - |a|..]
  }
}

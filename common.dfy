/**
 * Shared vocabulary: Java's fixed-width integers, bytes, the null-able
 * reference (Option) and the exceptions the core can raise (Result).
 */
module Common {

  /** A Java reference that may be null. */
  datatype Option<+T> = None | Some(value: T)

  /** The run-time exceptions the modelled code can throw. */
  datatype Error =
    | ArrayIndexOutOfBounds        // indexing a split result that is too short
    | StringIndexOutOfBounds       // substring or StringBuilder.delete with bad indices
    | NullPointer                  // dereferencing a reference that was never set
    | UnsupportedDataType(message: string)

  /** The outcome of a call that either returns normally or throws. */
  datatype Result<+T> = Ok(value: T) | Err(error: Error)

  /** Integer.MAX_VALUE. */
  const IntMax: int := 0x7fff_ffff

  /** Java `int`. */
  type Int32 = x: int | -0x8000_0000 <= x < 0x8000_0000

  /** Java `long`. */
  type Int64 = x: int | -0x8000_0000_0000_0000 <= x < 0x8000_0000_0000_0000

  /** Java `byte` (signed). */
  type byte = x: int | -128 <= x < 128

  /** Java `byte[]`. */
  type Bytes = seq<byte>
}

/** Fixed-width integers and the index format shared by the mesh and buffer code.
    IndexType itself is declared in Base.h, which is not part of this model. */
module Base {

  const U32Limit: int := 0x1_0000_0000

  newtype u8 = x: int | 0 <= x < 0x100
  newtype u16 = x: int | 0 <= x < 0x1_0000
  newtype u32 = x: int | 0 <= x < 0x1_0000_0000

  /** The width of one element of an index buffer. */
  datatype IndexType = UInt16 | UInt32

  datatype Option<T> = None | Some(value: T)

  /** Conversion of a `size_t` to `uint32_t`: keeps the low 32 bits. */
  function TruncateU32(n: nat): (r: u32)
    ensures r as int == n % U32Limit
    ensures n < U32Limit ==> r as int == n
  {
    (n % U32Limit) as u32
  }
}

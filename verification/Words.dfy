/** Machine words and optional values, shared by the modules of the project. */
module Words {

  datatype Option<T> = None | Some(value: T)

  const TWO32: nat := 0x1_0000_0000
  const TWO64: nat := 0x1_0000_0000_0000_0000

  type u64 = x: int | 0 <= x < 0x1_0000_0000_0000_0000

  /** uint64 addition and subtraction, wrapping. */
  function Add64(a: u64, b: u64): u64 { if a + b < TWO64 then a + b else a + b - TWO64 }
  function Sub64(a: u64, b: u64): u64 { if a >= b then a - b else a - b + TWO64 }
}

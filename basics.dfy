/** Java value types the teleoperation core relies on: 32-bit `int` with
    wrap-around, the 16-bit `char` a key code is narrowed to, and `Optional`. */
module Basics {

  const INT32_MIN: int := -0x8000_0000
  const INT32_MAX: int := 0x7fff_ffff

  /** Java `int`. */
  type int32 = x: int | INT32_MIN <= x <= INT32_MAX

  /** A UTF-16 code unit, the value range of Java `char`. */
  type Char16 = c: int | 0 <= c < 0x1_0000

  /** Java `Optional<T>`. */
  datatype Option<+T> = None | Some(value: T)

  /** Java `int` arithmetic: the result of an addition or subtraction keeps the
      low 32 bits, read as two's complement. */
  function Wrap32(x: int): (r: int32)
    ensures INT32_MIN <= x <= INT32_MAX ==> r == x
    ensures (r - x) % 0x1_0000_0000 == 0
  {
    (x - INT32_MIN) % 0x1_0000_0000 + INT32_MIN
  }

  /** The narrowing cast `(char) key`: the low 16 bits of the `int`. */
  function ToChar16(key: int32): (c: Char16)
    ensures 0 <= key < 0x1_0000 ==> c == key
    ensures (c - key) % 0x1_0000 == 0
  {
    key % 0x1_0000
  }
}

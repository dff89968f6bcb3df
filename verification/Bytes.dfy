/** Bytes, and those that texts are made of. */
module Bytes {
  type Byte = b: int | 0 <= b < 256
  type Text = seq<Byte>

  const TAB: Byte := 9
  const NEWLINE: Byte := 10
  const SPACE: Byte := 32
  const PLUS: Byte := '+' as int
  const MINUS: Byte := '-' as int
  const DOT: Byte := '.' as int
  const UNDERSCORE: Byte := '_' as int
  const DIGIT0: Byte := '0' as int
  const SMALL_E: Byte := 'e' as int
  const LARGE_E: Byte := 'E' as int

  predicate IsDigit(c: Byte) { DIGIT0 <= c <= DIGIT0 + 9 }

  /** The bytes of an ASCII string. */
  function Ascii(s: string): Text
    requires forall i | 0 <= i < |s| :: s[i] as int < 128
  {
    seq(|s|, i requires 0 <= i < |s| => s[i] as int)
  }
}

/** Well-formed UTF-8. */
module Utf8Bytes {
  import opened Bytes

  predicate Continues(c: Byte) { 0x80 <= c < 0xC0 }

  /** One well-formed sequence of RFC 3629, section 4, surrogates aside. */
  predicate WellFormed(s: Text) {
    match |s|
    case 1 => s[0] < 0x80
    case 2 => 0xC2 <= s[0] < 0xE0 && Continues(s[1])
    case 3 => 0xE0 <= s[0] < 0xF0 && Continues(s[1]) && Continues(s[2]) && (s[0] == 0xE0 ==> s[1] >= 0xA0)
    case 4 =>
      0xF0 <= s[0] <= 0xF4 && Continues(s[1]) && Continues(s[2]) && Continues(s[3])
      && (s[0] == 0xF0 ==> s[1] >= 0x90) && (s[0] == 0xF4 ==> s[1] < 0x90)
    case _ => false
  }
}

/** Bytes, the ASCII characters the model needs, and Rust's
    `char::to_digit(radix)` applied to a byte read as a `char`. */
module Ascii {
  import opened Wrappers

  newtype byte = x: int | 0 <= x < 256

  const MINUS: byte := 0x2D    // '-'
  const DOT: byte := 0x2E      // '.'
  const ZERO: byte := 0x30     // '0'
  const UPPER_I: byte := 0x49  // 'I'
  const UPPER_N: byte := 0x4E  // 'N'
  const LOWER_E: byte := 0x65  // 'e'
  const LOWER_I: byte := 0x69  // 'i'
  const LOWER_N: byte := 0x6E  // 'n'
  const LOWER_P: byte := 0x70  // 'p'

  /** The lower-case spelling of digit value `d`: '0'..'9', then 'a'..'z'. */
  function LowerDigit(d: nat): byte
    requires d < 36
  {
    if d < 10 then (0x30 + d) as byte else (0x61 + d - 10) as byte
  }

  /** The upper-case spelling of digit value `d`: '0'..'9', then 'A'..'Z'. */
  function UpperDigit(d: nat): byte
    requires d < 36
  {
    if d < 10 then (0x30 + d) as byte else (0x41 + d - 10) as byte
  }

  /** `c` spells some digit below `radix`, in either case. This is the
      definition the validators are specified against. */
  ghost predicate IsDigitOf(c: byte, radix: nat) {
    exists d: nat :: d < radix && d < 36 && (c == LowerDigit(d) || c == UpperDigit(d))
  }

  /** `(c as char).to_digit(radix)`: '0'..'9' are 0 to 9, 'a'..'z' and
      'A'..'Z' are 10 to 35, and the value counts only below `radix`.
      Rust panics for a radix above 36, hence the precondition. */
  function ToDigit(c: byte, radix: nat): (r: Option<nat>)
    requires radix <= 36
    ensures r.Some? ==> r.value < radix
    ensures r.Some? ==> c == LowerDigit(r.value) || c == UpperDigit(r.value)
  {
    var n := c as int;
    var d :=
      if 0x30 <= n <= 0x39 then n - 0x30
      else if 0x61 <= n <= 0x7A then n - 0x61 + 10
      else if 0x41 <= n <= 0x5A then n - 0x41 + 10
      else 36;
    if d < radix then Some(d) else None
  }

  /** Reading back a spelled digit gives its value, in both cases. */
  lemma ToDigitOfSpelling(d: nat, radix: nat)
    requires d < 36 && radix <= 36
    ensures ToDigit(LowerDigit(d), radix) == if d < radix then Some(d) else None
    ensures ToDigit(UpperDigit(d), radix) == if d < radix then Some(d) else None
  {
  }

  /** `to_digit` accepts exactly the spellings of the digits below `radix`. */
  lemma ToDigitIsDigitOf(c: byte, radix: nat)
    requires radix <= 36
    ensures ToDigit(c, radix).Some? <==> IsDigitOf(c, radix)
  {
    if ToDigit(c, radix).Some? {
      var d := ToDigit(c, radix).value;
      assert d < radix && d < 36 && (c == LowerDigit(d) || c == UpperDigit(d));
    }
    if IsDigitOf(c, radix) {
      var d: nat :| d < radix && d < 36 && (c == LowerDigit(d) || c == UpperDigit(d));
      ToDigitOfSpelling(d, radix);
    }
  }
}

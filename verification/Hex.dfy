/** Hexadecimal text, as the wire format writes scripts. */
module Hex {
  import opened Wrappers
  import opened Model

  type Nibble = n: nat | n < 16

  function Digit(n: Nibble): char {
    if n < 10 then '0' + n as char else 'a' + (n - 10) as char
  }

  function Value(c: char): Option<Nibble> {
    if '0' <= c <= '9' then Some((c - '0') as nat)
    else if 'a' <= c <= 'f' then Some(10 + (c - 'a') as nat)
    else if 'A' <= c <= 'F' then Some(10 + (c - 'A') as nat)
    else None
  }

  /** Two lower-case digits a byte. */
  function Encode(bytes: seq<Byte>): string {
    if bytes == [] then "" else [Digit(bytes[0] / 16), Digit(bytes[0] % 16)] + Encode(bytes[1..])
  }

  /** Either case is read; an odd length or any other character is refused. */
  function Decode(text: string): Option<seq<Byte>> {
    if text == "" then Some([])
    else if |text| == 1 || Value(text[0]).None? || Value(text[1]).None? then None
    else
      match Decode(text[2..])
      case None => None
      case Some(rest) => Some([16 * Value(text[0]).value + Value(text[1]).value] + rest)
  }

  lemma DigitHasValue(n: Nibble)
    ensures Value(Digit(n)) == Some(n)
  {
  }

  lemma {:induction false} RoundTrip(bytes: seq<Byte>)
    ensures Decode(Encode(bytes)) == Some(bytes)
  {
    if bytes != [] {
      RoundTrip(bytes[1..]);
      DigitHasValue(bytes[0] / 16);
      DigitHasValue(bytes[0] % 16);
      assert Encode(bytes)[2..] == Encode(bytes[1..]);
      assert bytes == [bytes[0]] + bytes[1..];
    }
  }

  /** The digits, in their two cases. */
  lemma DigitsAre(n: Nibble)
    ensures Digit(n) == "0123456789abcdef"[n]
    ensures Value("0123456789abcdef"[n]) == Value("0123456789ABCDEF"[n]) == Some(n)
  {
  }

  /** Nothing else is a digit. */
  lemma OnlyDigits(c: char)
    ensures Value(c).Some? ==> c == "0123456789abcdef"[Value(c).value] || c == "0123456789ABCDEF"[Value(c).value]
  {
  }
}

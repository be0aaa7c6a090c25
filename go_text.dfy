/**
 * Go strings are UTF-8 byte sequences; the model's strings are sequences of
 * Unicode scalar values.  `len(s)` and `s[0]` therefore go through the UTF-8
 * encoding, and `%d` formatting through the decimal digits.
 */
module GoText {

  /** Number of bytes UTF-8 uses for one character. */
  function BytesUtf8(c: char): (n: nat)
    ensures 1 <= n <= 4
    ensures n == 1 <==> c < 128 as char
  {
    if c < 0x80 as char then 1
    else if c < 0x800 as char then 2
    else if c < 0x1_0000 as char then 3
    else 4
  }

  /** Go's `len(s)`: the length of the UTF-8 encoding of `s`. */
  function LongitudBytes(s: string): nat
  {
    if s == [] then 0 else BytesUtf8(s[0]) + LongitudBytes(s[1..])
  }

  /** A string never has fewer bytes than characters, and has exactly as many when it is ASCII. */
  lemma {:induction false} LongitudBytesCota(s: string)
    ensures LongitudBytes(s) >= |s|
    ensures LongitudBytes(s) == |s| <==> forall k :: 0 <= k < |s| ==> s[k] < 128 as char
  {
    if s != [] {
      LongitudBytesCota(s[1..]);
      assert forall k :: 1 <= k < |s| ==> s[k] == s[1..][k - 1];
    }
  }

  /** Go's `s[0]` for a non-empty string: the first byte of the UTF-8 encoding of its first character. */
  function PrimerByte(c: char): (b: nat)
    ensures b < 256
    ensures c < 128 as char ==> b == c as nat
    ensures c >= 128 as char ==> b >= 0xC0
  {
    var v := c as int;
    if v < 0x80 then v
    else if v < 0x800 then 0xC0 + v / 0x40
    else if v < 0x1_0000 then 0xE0 + v / 0x1000
    else 0xF0 + v / 0x4_0000
  }

  /** The decimal digit character of `d`. */
  function Digito(d: nat): (c: char)
    requires d < 10
    ensures '0' <= c <= '9'
    ensures (c as int) - ('0' as int) == d
  {
    (('0' as int) + d) as char
  }

  /** The decimal digits of `n`, most significant first, without leading zeros. */
  function Digitos(n: nat): (r: string)
    ensures |r| >= 1
    ensures forall k :: 0 <= k < |r| ==> '0' <= r[k] <= '9'
  {
    if n < 10 then [Digito(n)] else Digitos(n / 10) + [Digito(n % 10)]
  }

  /** The value of a string of decimal digits. */
  function ValorDecimal(s: string): int
  {
    if s == [] then 0 else 10 * ValorDecimal(s[..|s| - 1]) + ((s[|s| - 1] as int) - ('0' as int))
  }

  /** Go's `%d` (and `strconv.Itoa`) for an integer. */
  function Itoa(n: int): string
  {
    if n < 0 then "-" + Digitos(-n) else Digitos(n)
  }

  /** Reading the digits back gives the number: the decimal rendering loses nothing. */
  lemma {:induction false} DigitosValor(n: nat)
    ensures ValorDecimal(Digitos(n)) == n
  {
    if n >= 10 {
      DigitosValor(n / 10);
      var s := Digitos(n / 10) + [Digito(n % 10)];
      assert s[..|s| - 1] == Digitos(n / 10);
      assert ValorDecimal(s) == 10 * (n / 10) + n % 10;
    }
  }
}

/**
 * Validator addresses as text, and the string order of Go.
 *
 * The engine renders a raw address as upper-case hex text (the rendering
 * of the consensus library's byte strings) and keys its backends and its
 * signing-status map by that text. Go's plain string-to-bytes conversion
 * is a different map: it takes the UTF-8 bytes of the text, so applied to
 * hex text it does not give the raw address back; decoding the hex does.
 */
module Addresses {
  import opened Wrappers
  import opened Chain

  /** The upper-case hex digit for a value below 16. */
  function HexDigit(n: nat): (c: char)
    requires n < 16
    ensures (c as int) < 128
  {
    if n < 10 then (('0' as int) + n) as char else (('A' as int) + n - 10) as char
  }

  /** The value of a hex digit of either case, and None for any other character. */
  function DigitValue(c: char): (d: Option<nat>)
    ensures d.Some? ==> d.value < 16
  {
    if '0' <= c <= '9' then Some((c as int) - ('0' as int))
    else if 'A' <= c <= 'F' then Some((c as int) - ('A' as int) + 10)
    else if 'a' <= c <= 'f' then Some((c as int) - ('a' as int) + 10)
    else None
  }

  /** The upper-case hex text of a byte string: two digits per byte, high digit first. */
  function Hex(a: Bytes): (s: string)
    ensures |s| == 2 * |a|
  {
    if a == [] then "" else [HexDigit(a[0] as int / 16), HexDigit(a[0] as int % 16)] + Hex(a[1..])
  }

  /** Hex text is ASCII. */
  lemma {:induction false} HexIsAscii(a: Bytes)
    ensures forall i :: 0 <= i < |Hex(a)| ==> (Hex(a)[i] as int) < 128
  {
    if a != [] {
      HexIsAscii(a[1..]);
      assert Hex(a)[2..] == Hex(a[1..]);
    }
  }

  /** The bytes a hex text of either case spells, and None for text that is not hex (odd length, other characters). */
  function DecodeHex(s: string): (r: Option<Bytes>)
    ensures r.Some? ==> 2 * |r.value| == |s|
  {
    if s == [] then Some([])
    else if |s| == 1 then None
    else
      match (DigitValue(s[0]), DigitValue(s[1]), DecodeHex(s[2..]))
      case (Some(hi), Some(lo), Some(rest)) => Some([(hi * 16 + lo) as byte] + rest)
      case _ => None
  }

  /** Reading a digit back gives its value. */
  lemma HexDigitRoundTrip(n: nat)
    requires n < 16
    ensures DigitValue(HexDigit(n)) == Some(n)
  {
  }

  /** Decoding the hex text of an address gives the address back. */
  lemma {:induction false} DecodeHexInvertsHex(a: Bytes)
    ensures DecodeHex(Hex(a)) == Some(a)
  {
    if a != [] {
      var hi, lo := a[0] as int / 16, a[0] as int % 16;
      var s := Hex(a);
      assert s == [HexDigit(hi), HexDigit(lo)] + Hex(a[1..]);
      assert s[2..] == Hex(a[1..]);
      DecodeHexInvertsHex(a[1..]);
      HexDigitRoundTrip(hi);
      HexDigitRoundTrip(lo);
      assert (hi * 16 + lo) as byte == a[0];
      assert [a[0]] + a[1..] == a;
    }
  }

  /** Two addresses with the same hex text are the same address. */
  lemma HexInjective(a: Bytes, b: Bytes)
    requires Hex(a) == Hex(b)
    ensures a == b
  {
    DecodeHexInvertsHex(a);
    DecodeHexInvertsHex(b);
  }

  /** The UTF-8 encoding of one character. */
  function EncodeChar(c: char): (b: Bytes)
    ensures 1 <= |b| <= 4
    ensures (c as int) < 128 ==> b == [(c as int) as byte]
  {
    var n := c as int;
    if n < 0x80 then [n as byte]
    else if n < 0x800 then [(0xC0 + n / 0x40) as byte, (0x80 + n % 0x40) as byte]
    else if n < 0x1_0000 then
      [(0xE0 + n / 0x1000) as byte, (0x80 + (n / 0x40) % 0x40) as byte, (0x80 + n % 0x40) as byte]
    else
      [(0xF0 + n / 0x4_0000) as byte, (0x80 + (n / 0x1000) % 0x40) as byte,
       (0x80 + (n / 0x40) % 0x40) as byte, (0x80 + n % 0x40) as byte]
  }

  /** Go's conversion of a string to bytes: the UTF-8 encoding of its characters, in order. */
  function Utf8(s: string): (b: Bytes)
    ensures |b| >= |s|
  {
    if s == [] then [] else EncodeChar(s[0]) + Utf8(s[1..])
  }

  /** ASCII text converts to as many bytes as it has characters. */
  lemma {:induction false} Utf8OfAscii(s: string)
    requires forall i :: 0 <= i < |s| ==> (s[i] as int) < 128
    ensures |Utf8(s)| == |s|
  {
    if s != [] {
      Utf8OfAscii(s[1..]);
    }
  }

  /**
   * Converting the hex text of a non-empty address to bytes as Go does
   * gives twice as many bytes as the address has, so never the address, and
   * rendering those bytes as hex again never gives the text back.
   */
  lemma HexTextBytesDiffer(a: Bytes)
    requires a != []
    ensures |Utf8(Hex(a))| == 2 * |a|
    ensures Utf8(Hex(a)) != a
    ensures Hex(Utf8(Hex(a))) != Hex(a)
  {
    HexIsAscii(a);
    Utf8OfAscii(Hex(a));
  }

  /** Go's string order: byte-wise lexicographic, a proper prefix first (UTF-8 keeps the order of characters). */
  predicate StrLess(a: string, b: string)
  {
    if b == [] then false
    else if a == [] then true
    else if a[0] != b[0] then a[0] < b[0]
    else StrLess(a[1..], b[1..])
  }

  /** The string order is transitive. */
  lemma {:induction false} StrLessTransitive(a: string, b: string, c: string)
    requires StrLess(a, b) && StrLess(b, c)
    ensures StrLess(a, c)
  {
    if a != [] && a[0] == b[0] && b[0] == c[0] {
      StrLessTransitive(a[1..], b[1..], c[1..]);
    }
  }

  /** Of two different strings, one is below the other. */
  lemma {:induction false} StrLessTotal(a: string, b: string)
    requires a != b
    ensures StrLess(a, b) || StrLess(b, a)
  {
    if a != [] && b != [] && a[0] == b[0] {
      assert a == [a[0]] + a[1..] && b == [b[0]] + b[1..];
      StrLessTotal(a[1..], b[1..]);
    }
  }

  /** "Not below" is transitive too, so sorting by the string order is well defined. */
  lemma StrNotLessTransitive(a: string, b: string, c: string)
    requires !StrLess(b, a) && !StrLess(c, b)
    ensures !StrLess(c, a)
  {
    if StrLess(c, a) {
      if a == b {
      } else {
        StrLessTotal(a, b);
        StrLessTransitive(c, a, b);
      }
    }
  }

  /** The string order is asymmetric. */
  lemma {:induction false} StrLessAsymmetric(a: string, b: string)
    requires StrLess(a, b)
    ensures !StrLess(b, a)
  {
    if a != [] && b != [] && a[0] == b[0] {
      StrLessAsymmetric(a[1..], b[1..]);
    }
  }
}
